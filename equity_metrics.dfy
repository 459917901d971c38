/**
 * The equity-metrics page that resolves a company name to a ticker, reads four
 * valuation ratios from the provider's OVERVIEW payload, and optionally
 * approximates a sector P/E as the mean P/E of the subject's peers.
 *
 * The provider calls are inputs: an OVERVIEW lookup is a function from a symbol
 * to `Some(payload)` or `None` (the request raised), and Python's `float()` is
 * the parameter `parse`, `None` standing for a raised ValueError.
 * P/E and the other ratios are reals.
 */
module EquityMetrics {
  import opened Wrappers
  import opened PyText

  /** A JSON object of the provider, with its values as text. */
  type Payload = map<string, string>

  /** Python's `float()` on a string: `None` when it raises. */
  type Parser = string -> Option<real>

  /** The OVERVIEW endpoint: `None` when the request or its decoding raises. */
  type Overview = string -> Option<Payload>

  /** `payload.get(key)`. */
  function Field(payload: Payload, key: string): Option<string> {
    if key in payload then Some(payload[key]) else None
  }

  // ---------------------------------------------------------------------------
  // safe_float

  /** The placeholder strings safe_float refuses to hand to `float()`. */
  const RejectedTokens: set<string> := {"None", "", "NA", "nan"}

  /**
   * safe_float: None and the placeholder tokens give None; anything else is
   * whatever `float()` makes of it, None when `float()` raises. No finiteness
   * or sign is promised: "0" gives 0.0, and "NaN" or "inf" reach the parser.
   */
  function SafeFloat(x: Option<string>, parse: Parser): (r: Option<real>)
    ensures r.Some? <==> x.Some? && x.value !in RejectedTokens && parse(x.value).Some?
    ensures r.Some? ==> parse(x.value) == r
  {
    if x.None? || x.value in RejectedTokens then None else parse(x.value)
  }

  /** Each rejected input yields None whatever the parser would have said. */
  lemma SafeFloatRejects(parse: Parser, x: Option<string>)
    requires x.None? || x.value in RejectedTokens
    ensures SafeFloat(x, parse) == None
  {
  }

  /** Any other input is handed to the parser and its answer returned unchanged. */
  lemma SafeFloatDelegates(parse: Parser, s: string)
    requires s !in RejectedTokens
    ensures SafeFloat(Some(s), parse) == parse(s)
  {
  }

  // ---------------------------------------------------------------------------
  // infer_exchange_suffix

  /** The region hint is accepted but never changes the symbol. */
  function InferExchangeSuffix(nameHint: string, rawSymbol: string): (r: string)
    ensures r == rawSymbol
  {
    if "India" <= nameHint then rawSymbol else rawSymbol
  }

  // ---------------------------------------------------------------------------
  // Symbol search options and the pick

  /** A SYMBOL_SEARCH best match. */
  type Match = map<string, string>

  const MaxOptions: nat := 5
  const SymbolKey := "1. symbol"
  const NameKey := "2. name"
  const RegionKey := "4. region"
  const CurrencyKey := "8. currency"

  /** The separator written between the symbol and the name of an option: space, em dash, space. */
  const EmDash: char := '\U{2014}'
  const OptionSep: string := [' ', EmDash, ' ']

  /** `m.get(key, "")`. */
  function Lookup(m: Match, key: string): string {
    if key in m then m[key] else ""
  }

  /** The label `"{sym} — {name} [{region} | {currency}]"` offered for one match. */
  function OptionLabel(m: Match): string {
    Lookup(m, SymbolKey) + OptionSep + Lookup(m, NameKey) +
    " [" + Lookup(m, RegionKey) + " | " + Lookup(m, CurrencyKey) + "]"
  }

  function Min(a: nat, b: nat): nat {
    if a <= b then a else b
  }

  /** The option list: one label per match among the first five, in provider order. */
  method BuildOptions(matches: seq<Match>) returns (options: seq<string>)
    ensures |options| == Min(MaxOptions, |matches|)
    ensures forall i :: 0 <= i < |options| ==> options[i] == OptionLabel(matches[i])
  {
    var top := matches[..Min(MaxOptions, |matches|)];
    options := [];
    for i := 0 to |top|
      invariant |options| == i
      invariant forall k :: 0 <= k < i ==> options[k] == OptionLabel(top[k])
    {
      var m := top[i];
      options := options + [OptionLabel(m)];
    }
  }

  /** `pick.split(" — ")[0].strip()`: the symbol part of a picked label. */
  function ExtractSymbol(pick: string): (r: string)
    ensures NoOuterSpace(r)
    ensures |r| <= |pick|
  {
    Strip(SplitHead(pick, OptionSep))
  }

  /** The symbol the page goes on with, once the hint has been applied. */
  function SelectedSymbol(pick: string, exchangeHint: string): (r: string)
    ensures r == ExtractSymbol(pick)
  {
    InferExchangeSuffix(exchangeHint, ExtractSymbol(pick))
  }

  /** No occurrence of `sep` starts anywhere in `s`. */
  predicate FreeOf(s: string, sep: string) {
    forall i :: 0 <= i <= |s| ==> !(sep <= s[i..])
  }

  /** `s` ends with " —", the first two characters of the separator. */
  predicate EndsWithDash(s: string) {
    |s| >= 2 && s[|s| - 2] == ' ' && s[|s| - 1] == EmDash
  }

  /** Whether a separator starts at position `j` of a label, told from the symbol alone. */
  lemma EarlySeparator(sym: string, rest: string, j: nat)
    requires j < |sym|
    ensures var s := sym + OptionSep + rest;
            OptionSep <= s[j..] <==> OptionSep <= sym[j..] || (j == |sym| - 2 && EndsWithDash(sym))
  {
    var s := sym + OptionSep + rest;
    assert |s| >= j + 3;
    assert forall k :: j <= k < j + 3 ==> s[k] == if k < |sym| then sym[k] else OptionSep[k - |sym|];
    assert OptionSep <= s[j..] <==> s[j] == ' ' && s[j + 1] == EmDash && s[j + 2] == ' ';
    if j + 3 <= |sym| {
      assert OptionSep <= sym[j..] <==> sym[j] == ' ' && sym[j + 1] == EmDash && sym[j + 2] == ' ';
    }
  }

  /**
   * The first separator of `sym + OptionSep + rest` is the one placed after `sym`
   * exactly when `sym` has no " — " inside and does not end with " —".
   */
  lemma {:induction false} SplitHeadAtFirstSeparator(sym: string, rest: string)
    ensures SplitHead(sym + OptionSep + rest, OptionSep) == sym <==>
            FreeOf(sym, OptionSep) && !EndsWithDash(sym)
  {
    var s := sym + OptionSep + rest;
    var r := SplitHead(s, OptionSep);
    assert s[|sym|..] == OptionSep + rest;
    assert OptionSep <= s[|sym|..];
    assert |r| <= |sym|;
    forall j | 0 <= j < |sym|
      ensures OptionSep <= s[j..] <==> OptionSep <= sym[j..] || (j == |sym| - 2 && EndsWithDash(sym))
    {
      EarlySeparator(sym, rest, j);
    }
    assert !(OptionSep <= sym[|sym|..]);
    assert EndsWithDash(sym) ==> OptionSep <= s[|sym| - 2..];
    if FreeOf(sym, OptionSep) && !EndsWithDash(sym) {
      assert forall j :: 0 <= j < |sym| ==> !(OptionSep <= s[j..]);
      assert r == s[..|sym|] == sym;
    }
    if r == sym {
      assert forall j :: 0 <= j < |sym| ==> !(OptionSep <= s[j..]);
    }
  }

  /**
   * Picking the label of a match gives back that match's symbol, whatever the hint,
   * when the symbol has no " — " inside, does not end with " —", and has no outer
   * whitespace.
   */
  lemma {:induction false} PickRecoversSymbol(m: Match, exchangeHint: string)
    requires FreeOf(Lookup(m, SymbolKey), OptionSep) && !EndsWithDash(Lookup(m, SymbolKey))
    requires NoOuterSpace(Lookup(m, SymbolKey))
    ensures SelectedSymbol(OptionLabel(m), exchangeHint) == Lookup(m, SymbolKey)
  {
    var sym := Lookup(m, SymbolKey);
    var rest := Lookup(m, NameKey) + " [" + Lookup(m, RegionKey) + " | " + Lookup(m, CurrencyKey) + "]";
    var lbl := OptionLabel(m);
    assert lbl == sym + OptionSep + rest;
    SplitHeadAtFirstSeparator(sym, rest);
    assert SplitHead(lbl, OptionSep) == sym;
    assert Strip(sym) == sym;
    assert ExtractSymbol(lbl) == sym;
  }

  /**
   * Having no " — " inside the symbol is not enough for the round trip: a symbol
   * ending in " —" loses its tail, because the separator is found one place early.
   * (A symbol with an em dash elsewhere, such as "A—B", does round-trip.)
   */
  lemma {:induction false} PickLosesTrailingDash()
    ensures ExtractSymbol(OptionLabel(map[SymbolKey := ['A', ' ', EmDash]])) == "A"
  {
    var m := map[SymbolKey := ['A', ' ', EmDash]];
    var s := OptionLabel(m);
    assert s[..6] == ['A', ' ', EmDash, ' ', EmDash, ' '];
    var h := SplitHead(s, OptionSep);
    assert OptionSep <= s[1..];
    assert !(OptionSep <= s);
    assert h == "A";
    assert NoOuterSpace("A");
  }

  // ---------------------------------------------------------------------------
  // Peer filter

  /** An element of the peers JSON array: a string, or anything else. */
  datatype PeerEntry = PeerSymbol(symbol: string) | NonString

  const MaxPeers: nat := 6

  /** The comprehension's test: a string that is not the subject, ignoring case. */
  predicate IsCandidate(e: PeerEntry, subject: string) {
    e.PeerSymbol? && Upper(e.symbol) != Upper(subject)
  }

  /** The strings of `xs`, as peer entries. */
  function AsEntries(xs: seq<string>): (r: seq<PeerEntry>)
    ensures |r| == |xs|
    ensures forall i :: 0 <= i < |xs| ==> r[i] == PeerSymbol(xs[i])
  {
    if xs == [] then [] else [PeerSymbol(xs[0])] + AsEntries(xs[1..])
  }

  /** `xs` is obtained from `ys` by deleting elements, keeping the order. */
  predicate IsSubsequence<T(==)>(xs: seq<T>, ys: seq<T>)
    decreases |ys|
  {
    if xs == [] then true
    else if ys == [] then false
    else (xs[0] == ys[0] && IsSubsequence(xs[1..], ys[1..])) || IsSubsequence(xs, ys[1..])
  }

  /** A prefix of a subsequence is a subsequence. */
  lemma {:induction false} SubsequencePrefix<T>(xs: seq<T>, ys: seq<T>, n: nat)
    requires IsSubsequence(xs, ys)
    requires n <= |xs|
    ensures IsSubsequence(xs[..n], ys)
    decreases |ys|
  {
    if n == 0 || xs == [] {
      assert xs[..n] == [];
    } else {
      assert ys != [];
      if xs[0] == ys[0] && IsSubsequence(xs[1..], ys[1..]) {
        SubsequencePrefix(xs[1..], ys[1..], n - 1);
        assert xs[1..][..n - 1] == xs[..n][1..];
      } else {
        SubsequencePrefix(xs, ys[1..], n);
      }
    }
  }

  /** The peers the comprehension keeps, before truncation. */
  function Candidates(raw: seq<PeerEntry>, subject: string): (r: seq<string>)
    ensures |r| <= |raw|
    ensures IsSubsequence(AsEntries(r), raw)
    ensures forall k :: 0 <= k < |r| ==> Upper(r[k]) != Upper(subject)
    ensures forall i :: 0 <= i < |raw| && IsCandidate(raw[i], subject) ==> raw[i].symbol in r
    decreases |raw|
  {
    if raw == [] then []
    else
      var rest := Candidates(raw[1..], subject);
      assert forall i :: 1 <= i < |raw| ==> raw[i] == raw[1..][i - 1];
      if IsCandidate(raw[0], subject) then
        var r := [raw[0].symbol] + rest;
        assert AsEntries(r)[1..] == AsEntries(rest);
        r
      else
        rest
  }

  /** The positions from `from` on whose entry the comprehension's test accepts. */
  function CandidateIndices(raw: seq<PeerEntry>, subject: string, from: nat): set<int> {
    set i | from <= i < |raw| && IsCandidate(raw[i], subject)
  }

  /** The comprehension keeps one entry per accepted position of a suffix, duplicates included. */
  lemma {:induction false} CandidatesCountFrom(raw: seq<PeerEntry>, subject: string, from: nat)
    requires from <= |raw|
    ensures |Candidates(raw[from..], subject)| == |CandidateIndices(raw, subject, from)|
    decreases |raw| - from
  {
    var s := CandidateIndices(raw, subject, from);
    if from == |raw| {
      assert s == {};
    } else {
      var t := CandidateIndices(raw, subject, from + 1);
      CandidatesCountFrom(raw, subject, from + 1);
      assert raw[from..][1..] == raw[from + 1..];
      if IsCandidate(raw[from], subject) {
        assert s == t + {from};
      } else {
        assert s == t;
      }
    }
  }

  /**
   * The comprehension keeps one entry per accepted position, duplicates included;
   * with the subsequence and test facts of Candidates this fixes its result.
   */
  lemma CandidatesCount(raw: seq<PeerEntry>, subject: string)
    ensures |Candidates(raw, subject)| == |CandidateIndices(raw, subject, 0)|
  {
    CandidatesCountFrom(raw, subject, 0);
    assert raw[0..] == raw;
  }

  /**
   * The peers comprehension with its `[:6]` cut: the string peers other than the subject (compared upper-cased),
   * in their original order, cut to the first six.
   */
  function FilterPeers(raw: seq<PeerEntry>, subject: string): (r: seq<string>)
    ensures IsSubsequence(AsEntries(r), raw)
    ensures forall k :: 0 <= k < |r| ==> Upper(r[k]) != Upper(subject)
    ensures |r| == Min(MaxPeers, |Candidates(raw, subject)|)
    ensures r <= Candidates(raw, subject)
  {
    var c := Candidates(raw, subject);
    var r := c[..Min(MaxPeers, |c|)];
    SubsequencePrefix(AsEntries(c), raw, |r|);
    assert AsEntries(c)[..|r|] == AsEntries(r);
    r
  }

  /** Every qualifying peer is kept when there are at most six of them. */
  lemma FilterPeersKeepsAllWhenFew(raw: seq<PeerEntry>, subject: string, i: nat)
    requires |Candidates(raw, subject)| <= MaxPeers
    requires i < |raw| && IsCandidate(raw[i], subject)
    ensures raw[i].symbol in FilterPeers(raw, subject)
  {
  }

  // ---------------------------------------------------------------------------
  // Peer P/E loop

  /** The P/E of one peer as the loop sees it: None when the fetch raised or the field does not parse. */
  function PeerPe(p: string, overview: Overview, parse: Parser): Option<real> {
    match overview(p)
    case None => None
    case Some(ov) => SafeFloat(Field(ov, "PERatio"), parse)
  }

  /** `if ppe and ppe > 0`: present and strictly positive (0.0 is falsy). */
  predicate Contributes(pe: Option<real>) {
    pe.Some? && pe.value > 0.0
  }

  /** The peer symbols of a debug list. */
  function PeerNames(d: seq<(string, real)>): (r: seq<string>)
    ensures |r| == |d|
    ensures forall k :: 0 <= k < |d| ==> r[k] == d[k].0
  {
    if d == [] then [] else [d[0].0] + PeerNames(d[1..])
  }

  /** The P/E values of a debug list. */
  function PeValues(d: seq<(string, real)>): (r: seq<real>)
    ensures |r| == |d|
    ensures forall k :: 0 <= k < |d| ==> r[k] == d[k].1
  {
    if d == [] then [] else [d[0].1] + PeValues(d[1..])
  }

  /** The (peer, P/E) pairs the loop records, in peer-list order. */
  function Contributors(peers: seq<string>, overview: Overview, parse: Parser): seq<(string, real)>
    decreases |peers|
  {
    if peers == [] then []
    else
      var pe := PeerPe(peers[0], overview, parse);
      (if Contributes(pe) then [(peers[0], pe.value)] else []) + Contributors(peers[1..], overview, parse)
  }

  /** Each pair holds a peer and that peer's P/E, which is positive. */
  predicate AllGenuine(d: seq<(string, real)>, overview: Overview, parse: Parser) {
    forall k :: 0 <= k < |d| ==> d[k].1 > 0.0 && PeerPe(d[k].0, overview, parse) == Some(d[k].1)
  }

  /** Every recorded pair is a peer with a positive P/E, recorded with that P/E. */
  lemma {:induction false} ContributorsSound(peers: seq<string>, overview: Overview, parse: Parser)
    ensures AllGenuine(Contributors(peers, overview, parse), overview, parse)
    decreases |peers|
  {
    if peers != [] {
      var d := Contributors(peers, overview, parse);
      var rest := Contributors(peers[1..], overview, parse);
      var pe := PeerPe(peers[0], overview, parse);
      ContributorsSound(peers[1..], overview, parse);
      if Contributes(pe) {
        assert d == [(peers[0], pe.value)] + rest;
        forall k | 1 <= k < |d|
          ensures d[k] == rest[k - 1]
        {
        }
      } else {
        assert d == rest;
      }
    }
  }

  /** The recorded peers keep the order of the peer list, at most once per entry. */
  lemma {:induction false} ContributorsInOrder(peers: seq<string>, overview: Overview, parse: Parser)
    ensures IsSubsequence(PeerNames(Contributors(peers, overview, parse)), peers)
    decreases |peers|
  {
    if peers != [] {
      var d := Contributors(peers, overview, parse);
      var rest := Contributors(peers[1..], overview, parse);
      ContributorsInOrder(peers[1..], overview, parse);
      if Contributes(PeerPe(peers[0], overview, parse)) {
        assert PeerNames(d)[1..] == PeerNames(rest);
      } else {
        assert d == rest;
      }
    }
  }

  /** Every peer with a present, positive P/E is recorded. */
  lemma {:induction false} ContributorsComplete(peers: seq<string>, overview: Overview, parse: Parser, i: nat)
    requires i < |peers| && Contributes(PeerPe(peers[i], overview, parse))
    ensures peers[i] in PeerNames(Contributors(peers, overview, parse))
    decreases |peers|
  {
    var d := Contributors(peers, overview, parse);
    var rest := Contributors(peers[1..], overview, parse);
    if i == 0 {
      assert PeerNames(d)[0] == peers[0];
    } else {
      ContributorsComplete(peers[1..], overview, parse, i - 1);
      if Contributes(PeerPe(peers[0], overview, parse)) {
        assert PeerNames(d)[1..] == PeerNames(rest);
      } else {
        assert d == rest;
      }
    }
  }

  /** The positions from `from` on whose peer has a present, positive P/E. */
  function ContributingIndices(peers: seq<string>, overview: Overview, parse: Parser, from: nat): set<int> {
    set i | from <= i < |peers| && Contributes(PeerPe(peers[i], overview, parse))
  }

  /** One recorded pair per contributing position of a suffix. */
  lemma {:induction false} ContributorsCountFrom(peers: seq<string>, overview: Overview, parse: Parser, from: nat)
    requires from <= |peers|
    ensures |Contributors(peers[from..], overview, parse)| == |ContributingIndices(peers, overview, parse, from)|
    decreases |peers| - from
  {
    var s := ContributingIndices(peers, overview, parse, from);
    if from == |peers| {
      assert s == {};
    } else {
      var t := ContributingIndices(peers, overview, parse, from + 1);
      ContributorsCountFrom(peers, overview, parse, from + 1);
      assert peers[from..][1..] == peers[from + 1..];
      if Contributes(PeerPe(peers[from], overview, parse)) {
        assert s == t + {from};
      } else {
        assert s == t;
      }
    }
  }

  /**
   * One pair per contributing position: a peer listed twice with a positive P/E
   * is recorded, and averaged, twice.
   */
  lemma ContributorsCount(peers: seq<string>, overview: Overview, parse: Parser)
    ensures |Contributors(peers, overview, parse)| == |ContributingIndices(peers, overview, parse, 0)|
  {
    ContributorsCountFrom(peers, overview, parse, 0);
    assert peers[0..] == peers;
  }

  /** One more peer processed: the recorded pairs grow by that peer's pair, if it contributes. */
  lemma ContributorsStep(peers: seq<string>, i: nat, done: seq<(string, real)>, overview: Overview, parse: Parser)
    requires i < |peers|
    requires done + Contributors(peers[i..], overview, parse) == Contributors(peers, overview, parse)
    ensures var pe := PeerPe(peers[i], overview, parse);
            (if Contributes(pe) then done + [(peers[i], pe.value)] else done) +
            Contributors(peers[i + 1..], overview, parse) == Contributors(peers, overview, parse)
  {
  }

  /**
   * The `for p in peers` loop of the sector estimate: one OVERVIEW fetch per peer, in order; a peer counts only with a
   * positive P/E, and a failing fetch skips that peer. The two lists stay aligned.
   */
  method CollectPeerPes(peers: seq<string>, overview: Overview, parse: Parser)
    returns (peerPes: seq<real>, peerDebug: seq<(string, real)>)
    ensures peerDebug == Contributors(peers, overview, parse)
    ensures |peerPes| == |peerDebug|
    ensures forall k :: 0 <= k < |peerPes| ==> peerDebug[k].1 == peerPes[k] && peerPes[k] > 0.0
  {
    peerPes, peerDebug := [], [];
    for i := 0 to |peers|
      invariant |peerPes| == |peerDebug|
      invariant forall k :: 0 <= k < |peerPes| ==> peerDebug[k].1 == peerPes[k]
      invariant peerDebug + Contributors(peers[i..], overview, parse) == Contributors(peers, overview, parse)
    {
      var p := peers[i];
      ContributorsStep(peers, i, peerDebug, overview, parse);
      var ov := overview(p);
      if ov.Some? {
        var ppe := SafeFloat(Field(ov.value, "PERatio"), parse);
        if ppe.Some? && ppe.value > 0.0 {
          peerPes := peerPes + [ppe.value];
          peerDebug := peerDebug + [(p, ppe.value)];
        }
      }
    }
    assert peers[|peers|..] == [];
    ContributorsSound(peers, overview, parse);
  }

  // ---------------------------------------------------------------------------
  // Mean

  function Sum(xs: seq<real>): real {
    if xs == [] then 0.0 else xs[0] + Sum(xs[1..])
  }

  /** `sum(xs) / len(xs)`. */
  function Mean(xs: seq<real>): real
    requires xs != []
  {
    Sum(xs) / (|xs| as real)
  }

  /** The smallest element. */
  function MinOf(xs: seq<real>): (m: real)
    requires xs != []
    ensures m in xs
    ensures forall k :: 0 <= k < |xs| ==> m <= xs[k]
  {
    if |xs| == 1 then xs[0]
    else
      var t := MinOf(xs[1..]);
      assert forall k :: 1 <= k < |xs| ==> xs[k] == xs[1..][k - 1];
      if xs[0] <= t then xs[0] else t
  }

  /** The largest element. */
  function MaxOf(xs: seq<real>): (m: real)
    requires xs != []
    ensures m in xs
    ensures forall k :: 0 <= k < |xs| ==> xs[k] <= m
  {
    if |xs| == 1 then xs[0]
    else
      var t := MaxOf(xs[1..]);
      assert forall k :: 1 <= k < |xs| ==> xs[k] == xs[1..][k - 1];
      if t <= xs[0] then xs[0] else t
  }

  /** A sum of n values, each between lo and hi, is between n*lo and n*hi. */
  lemma {:induction false} SumBounds(xs: seq<real>, lo: real, hi: real)
    requires forall k :: 0 <= k < |xs| ==> lo <= xs[k] <= hi
    ensures (|xs| as real) * lo <= Sum(xs) <= (|xs| as real) * hi
    decreases |xs|
  {
    if xs != [] {
      assert forall k :: 0 <= k < |xs| - 1 ==> xs[1..][k] == xs[k + 1];
      SumBounds(xs[1..], lo, hi);
      assert (|xs| as real) * lo == ((|xs| - 1) as real) * lo + lo;
      assert (|xs| as real) * hi == ((|xs| - 1) as real) * hi + hi;
    }
  }

  /** Dividing by a positive count keeps a scaled bound. */
  lemma ScaledBounds(s: real, n: real, lo: real, hi: real)
    requires n > 0.0
    requires n * lo <= s <= n * hi
    ensures lo <= s / n <= hi
  {
  }

  /** The mean lies between the smallest and the largest value. */
  lemma MeanBetween(xs: seq<real>)
    requires xs != []
    ensures MinOf(xs) <= Mean(xs) <= MaxOf(xs)
  {
    SumBounds(xs, MinOf(xs), MaxOf(xs));
    ScaledBounds(Sum(xs), |xs| as real, MinOf(xs), MaxOf(xs));
  }

  // ---------------------------------------------------------------------------
  // Sector P/E (step 3) and the metrics of one company

  /**
   * The optional sector P/E step, from `sector_pe = None` to its warning. `peerList` is the peers response, None when fetching or
   * iterating it raised; that failure only costs the estimate.
   */
  method EstimateSectorPe(computeSectorPe: bool, finnhubKey: string, selectedSymbol: string,
                          peerList: Option<seq<PeerEntry>>, overview: Overview, parse: Parser)
    returns (sectorPe: Option<real>, peerDebug: seq<(string, real)>)
    ensures !computeSectorPe || finnhubKey == "" || peerList.None? ==> sectorPe == None && peerDebug == []
    ensures computeSectorPe && finnhubKey != "" && peerList.Some? ==>
              peerDebug == Contributors(FilterPeers(peerList.value, selectedSymbol), overview, parse)
    ensures sectorPe.Some? <==> computeSectorPe && finnhubKey != "" && peerList.Some? && peerDebug != []
    ensures sectorPe.Some? ==> peerDebug != [] && sectorPe.value == Mean(PeValues(peerDebug))
    ensures sectorPe.Some? ==> 0.0 < MinOf(PeValues(peerDebug)) <= sectorPe.value <= MaxOf(PeValues(peerDebug))
  {
    sectorPe := None;
    peerDebug := [];
    if computeSectorPe && finnhubKey != "" {
      if peerList.Some? {
        var peers := FilterPeers(peerList.value, selectedSymbol);
        var peerPes;
        peerPes, peerDebug := CollectPeerPes(peers, overview, parse);
        if peerPes != [] {
          assert peerPes == PeValues(peerDebug);
          sectorPe := Some(Sum(peerPes) / (|peerPes| as real));
          MeanBetween(peerPes);
          assert MinOf(peerPes) in peerPes;
        }
      }
    }
  }

  /** The figures the result card shows, before formatting. */
  datatype Metrics = Metrics(
    pe: Option<real>,
    pb: Option<real>,
    divYield: Option<real>,
    roeTtm: Option<real>,
    sectorPe: Option<real>,
    peerDebug: seq<(string, real)>)

  /**
   * The parse of the four ratio fields followed by the sector P/E step: the four ratios come from the subject's payload alone and the
   * peer step cannot alter them; the sector estimate is the one of EstimateSectorPe.
   */
  method ComputeMetrics(payload: Payload, computeSectorPe: bool, finnhubKey: string, selectedSymbol: string,
                        peerList: Option<seq<PeerEntry>>, overview: Overview, parse: Parser)
    returns (m: Metrics)
    ensures m.pe == SafeFloat(Field(payload, "PERatio"), parse)
    ensures m.pb == SafeFloat(Field(payload, "PriceToBookRatio"), parse)
    ensures m.divYield == SafeFloat(Field(payload, "DividendYield"), parse)
    ensures m.roeTtm == SafeFloat(Field(payload, "ReturnOnEquityTTM"), parse)
    ensures !computeSectorPe || finnhubKey == "" || peerList.None? ==> m.sectorPe == None && m.peerDebug == []
    ensures computeSectorPe && finnhubKey != "" && peerList.Some? ==>
              m.peerDebug == Contributors(FilterPeers(peerList.value, selectedSymbol), overview, parse)
    ensures m.sectorPe.Some? <==> m.peerDebug != [] && computeSectorPe && finnhubKey != "" && peerList.Some?
    ensures m.sectorPe.Some? ==> m.peerDebug != [] && m.sectorPe.value == Mean(PeValues(m.peerDebug))
  {
    var pe := SafeFloat(Field(payload, "PERatio"), parse);
    var pb := SafeFloat(Field(payload, "PriceToBookRatio"), parse);
    var divYield := SafeFloat(Field(payload, "DividendYield"), parse);
    var roeTtm := SafeFloat(Field(payload, "ReturnOnEquityTTM"), parse);
    var sectorPe, peerDebug := EstimateSectorPe(computeSectorPe, finnhubKey, selectedSymbol, peerList, overview, parse);
    m := Metrics(pe, pb, divYield, roeTtm, sectorPe, peerDebug);
  }
}
