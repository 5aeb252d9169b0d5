/** The quote client of src/api/forex_client.py: pair normalisation and
    validation, the single request to the provider, and the reshaping of the
    provider's USD-based quotes into per-pair rates.

    The network is a `Provider` object that logs the requests it receives and
    answers each with the parsed JSON body of its reply, or None when the
    body is not JSON; the wall clock
    is the parameter `now`; the environment lookups are the arguments of
    `ForexApiClient.Create`. */
module ForexClient {
  import opened Wrappers

  const DefaultBaseUrl: string := "http://apilayer.net/api/live"

  /** The fixed list every client is created with. */
  const SupportedPairs: seq<string> :=
    ["EURUSD", "GBPUSD", "USDJPY", "AUDUSD", "USDCHF", "NZDUSD", "USDCAD", "USDZAR"]

  /** The `pairs` argument of `get_rates`: omitted (None), one string, or a list. */
  datatype PairsArg = AllPairs | OnePair(pair: string) | PairList(pairs: seq<string>)

  /** The one GET request: endpoint and the query parameters
      `access_key`, `source` and `format`. */
  datatype Request = Request(url: string, accessKey: string, source: string, format: int)

  /** The parsed reply body. A field is None when its key is absent;
      `errorInfo` is the `info` entry of the `error` object. */
  datatype ProviderReply = ProviderReply(
    success: Option<bool>,
    terms: Option<string>,
    privacy: Option<string>,
    timestamp: Option<int>,
    source: Option<string>,
    quotes: Option<map<string, real>>,
    errorInfo: Option<string>)

  datatype RateEntry = RateEntry(rate: real, timestamp: int)

  /** The dictionary `get_rates` returns. */
  datatype FetchResult = FetchResult(
    success: bool,
    terms: string,
    privacy: string,
    timestamp: int,
    source: string,
    rates: map<string, RateEntry>,
    allQuotes: map<string, real>)

  /** The `ValueError` of the constructor when API_KEY is unset or empty. */
  datatype ConfigError = ApiKeyNotFound

  /** What `get_rates` raises: the `ValueError` for unsupported pairs, the
      `ValueError` for a body that is not JSON, the `Exception` carrying the
      provider's error text, and the `ZeroDivisionError` of inverting a zero quote. */
  datatype FetchError =
    | UnsupportedPairs(invalid: seq<string>)
    | InvalidJson
    | ApiError(info: string)
    | DivisionByZero

  /** Normalisation of the `pairs` argument. */
  function Requested(arg: PairsArg, supported: seq<string>): seq<string>
  {
    match arg
    case AllPairs => supported
    case OnePair(p) => [p]
    case PairList(ps) => ps
  }

  /** The requested pairs that are not supported, in request order. */
  function InvalidPairs(requested: seq<string>, supported: seq<string>): (invalid: seq<string>)
    ensures forall p :: p in invalid <==> p in requested && p !in supported
    ensures |invalid| <= |requested|
  {
    if requested == [] then []
    else
      (if requested[0] in supported then [] else [requested[0]])
      + InvalidPairs(requested[1..], supported)
  }

  /** No argument means every supported pair, which always passes validation;
      a single pair is a one-element request, rejected exactly when it is not
      supported; a list is taken as it is. */
  lemma NormalisedRequests(supported: seq<string>, p: string, ps: seq<string>)
    ensures Requested(AllPairs, supported) == supported
    ensures InvalidPairs(Requested(AllPairs, supported), supported) == []
    ensures Requested(OnePair(p), supported) == [p]
    ensures InvalidPairs(Requested(OnePair(p), supported), supported) == if p in supported then [] else [p]
    ensures Requested(PairList(ps), supported) == ps
  {
    OnlySupportedIsValid(supported, supported);
  }

  /** A request made only of supported pairs has no invalid pair. */
  lemma {:induction false} OnlySupportedIsValid(requested: seq<string>, supported: seq<string>)
    requires forall p :: p in requested ==> p in supported
    ensures InvalidPairs(requested, supported) == []
  {
    if requested != [] {
      assert requested[0] in supported;
      OnlySupportedIsValid(requested[1..], supported);
    }
  }

  /** Filtering distributes over concatenation: the invalid pairs keep the
      order in which they were requested. */
  lemma {:induction false} InvalidPairsAppend(a: seq<string>, b: seq<string>, supported: seq<string>)
    ensures InvalidPairs(a + b, supported) == InvalidPairs(a, supported) + InvalidPairs(b, supported)
  {
    if a == [] {
      assert a + b == b;
    } else {
      assert (a + b)[0] == a[0] && (a + b)[1..] == a[1..] + b;
      InvalidPairsAppend(a[1..], b, supported);
    }
  }

  /** `pair.startswith("USD")`: USD is the base currency. */
  predicate IsDirect(pair: string)
  {
    |pair| >= 3 && pair[..3] == "USD"
  }

  /** The provider key a pair is read from: `"USD" + pair[3:]` for a direct
      pair, `"USD" + pair[:3]` otherwise. */
  function QuoteKey(pair: string): (key: string)
    ensures |key| >= 3 && key[..3] == "USD"
  {
    if IsDirect(pair) then "USD" + pair[3..]
    else "USD" + (if |pair| >= 3 then pair[..3] else pair)
  }

  /** A direct pair is looked up under its own name. */
  lemma DirectKeyIsPair(pair: string)
    requires IsDirect(pair)
    ensures QuoteKey(pair) == pair
  {
    assert pair == pair[..3] + pair[3..];
  }

  /** Every supported pair is six letters with USD as base or quote currency,
      so a supported inverse pair `XXXUSD` is read from `USDXXX`. */
  lemma SupportedPairsAreUsdPairs()
    ensures forall p :: p in SupportedPairs ==>
      |p| == 6 && (IsDirect(p) || (p[3..] == "USD" && QuoteKey(p) == "USD" + p[..3]))
  {
    forall p | p in SupportedPairs
      ensures |p| == 6 && (IsDirect(p) || (p[3..] == "USD" && QuoteKey(p) == "USD" + p[..3]))
    {
      assert p[..3] == [p[0], p[1], p[2]] && p[3..] == [p[3], p[4], p[5]];
    }
  }

  /** Inverting the quote of `pair` would divide by zero. */
  predicate DividesByZero(pair: string, quotes: map<string, real>)
  {
    !IsDirect(pair) && QuoteKey(pair) in quotes && quotes[QuoteKey(pair)] == 0.0
  }

  predicate AnyDivisionByZero(pairs: seq<string>, quotes: map<string, real>)
  {
    exists p :: p in pairs && DividesByZero(p, quotes)
  }

  /** The rate of `pair` derived from the provider quote `quote` of its key. */
  function Rate(pair: string, quote: real): (rate: real)
    requires IsDirect(pair) || quote != 0.0
    ensures IsDirect(pair) ==> rate == quote
    ensures !IsDirect(pair) ==> rate * quote == 1.0
  {
    if IsDirect(pair) then quote else 1.0 / quote
  }

  /** The `rates` dictionary: one entry for each requested pair whose key the
      provider quoted, all stamped with the same timestamp. */
  function RatesOf(pairs: seq<string>, quotes: map<string, real>, timestamp: int): map<string, RateEntry>
    requires !AnyDivisionByZero(pairs, quotes)
  {
    map p | p in pairs && QuoteKey(p) in quotes :: RateEntry(Rate(p, quotes[QuoteKey(p)]), timestamp)
  }

  /** One more iteration of the loop over the requested pairs. */
  lemma RatesOfSnoc(pairs: seq<string>, p: string, quotes: map<string, real>, timestamp: int)
    requires !AnyDivisionByZero(pairs + [p], quotes)
    ensures !AnyDivisionByZero(pairs, quotes)
    ensures !DividesByZero(p, quotes)
    ensures RatesOf(pairs + [p], quotes, timestamp) ==
      if QuoteKey(p) in quotes
      then RatesOf(pairs, quotes, timestamp)[p := RateEntry(Rate(p, quotes[QuoteKey(p)]), timestamp)]
      else RatesOf(pairs, quotes, timestamp)
  {
    assert forall q :: q in pairs ==> q in pairs + [p];
  }

  /** The loop of `get_rates` that fills the `rates` dictionary in request
      order, stopping with `ZeroDivisionError` at an inverse pair quoted as zero. */
  method DeriveRates(pairs: seq<string>, quotes: map<string, real>, timestamp: int)
    returns (r: Result<map<string, RateEntry>, FetchError>)
    ensures AnyDivisionByZero(pairs, quotes) ==> r == Failure(DivisionByZero)
    ensures !AnyDivisionByZero(pairs, quotes) ==> r == Success(RatesOf(pairs, quotes, timestamp))
  {
    var rates: map<string, RateEntry> := map[];
    for i := 0 to |pairs|
      invariant !AnyDivisionByZero(pairs[..i], quotes)
      invariant rates == RatesOf(pairs[..i], quotes, timestamp)
    {
      var pair := pairs[i];
      assert pairs[..i + 1] == pairs[..i] + [pair];
      if IsDirect(pair) {
        var key := "USD" + pair[3..];
        if key in quotes {
          rates := rates[pair := RateEntry(quotes[key], timestamp)];
        }
      } else {
        var key := "USD" + (if |pair| >= 3 then pair[..3] else pair);
        if key in quotes {
          if quotes[key] == 0.0 {
            assert DividesByZero(pair, quotes);
            return Failure(DivisionByZero);
          }
          rates := rates[pair := RateEntry(1.0 / quotes[key], timestamp)];
        }
      }
      RatesOfSnoc(pairs[..i], pair, quotes, timestamp);
    }
    assert pairs[..|pairs|] == pairs;
    r := Success(rates);
  }

  /** What happens once the request has been issued and its reply parsed. */
  function Outcome(requested: seq<string>, reply: Option<ProviderReply>, now: int): Result<FetchResult, FetchError>
  {
    match reply
    case None => Failure(InvalidJson)
    case Some(data) =>
      if data.success != Some(true) then Failure(ApiError(data.errorInfo.GetOr("Unknown error")))
      else
        var timestamp := data.timestamp.GetOr(now);
        var quotes := data.quotes.GetOr(map[]);
        if AnyDivisionByZero(requested, quotes) then Failure(DivisionByZero)
        else
          Success(FetchResult(
            data.success.GetOr(false),
            data.terms.GetOr("N/A"),
            data.privacy.GetOr("N/A"),
            timestamp,
            data.source.GetOr("USD"),
            RatesOf(requested, quotes, timestamp),
            quotes))
  }

  /** The call fails exactly when the body is not JSON, the provider did not
      report success, or an inverse pair has a zero quote; a provider failure
      carries `error.info`, or "Unknown error" when there is none. */
  lemma OutcomeFailures(requested: seq<string>, reply: Option<ProviderReply>, now: int)
    ensures reply.None? ==> Outcome(requested, reply, now) == Failure(InvalidJson)
    ensures reply.Some? && reply.value.success != Some(true) ==>
      Outcome(requested, reply, now) == Failure(ApiError(
        if reply.value.errorInfo.Some? then reply.value.errorInfo.value else "Unknown error"))
    ensures reply.Some? && reply.value.success == Some(true) ==>
      (Outcome(requested, reply, now).Failure? <==>
       exists p :: p in requested && DividesByZero(p, reply.value.quotes.GetOr(map[])))
  {
  }

  /** A direct pair carries its quote unchanged. */
  lemma DirectRate(requested: seq<string>, data: ProviderReply, now: int, pair: string)
    requires Outcome(requested, Some(data), now).Success?
    requires pair in requested && IsDirect(pair)
    requires data.quotes.Some? && pair in data.quotes.value
    ensures var result := Outcome(requested, Some(data), now).value;
      pair in result.rates && result.rates[pair].rate == data.quotes.value[pair]
  {
    DirectKeyIsPair(pair);
  }

  /** Any other pair carries the reciprocal of the quote of `"USD" + pair[:3]`. */
  lemma InverseRate(requested: seq<string>, data: ProviderReply, now: int, pair: string)
    requires Outcome(requested, Some(data), now).Success?
    requires pair in requested && !IsDirect(pair) && |pair| >= 3
    requires data.quotes.Some? && "USD" + pair[..3] in data.quotes.value
    ensures var result := Outcome(requested, Some(data), now).value;
      var quote := data.quotes.value["USD" + pair[..3]];
      quote != 0.0 && pair in result.rates &&
      result.rates[pair].rate == 1.0 / quote && result.rates[pair].rate * quote == 1.0
  {
  }

  /** The rates are exactly the requested pairs whose key was quoted: every
      other requested pair is dropped, and nothing unrequested appears. */
  lemma RatesAreQuotedRequests(requested: seq<string>, data: ProviderReply, now: int)
    requires Outcome(requested, Some(data), now).Success?
    ensures var result := Outcome(requested, Some(data), now).value;
      && result.rates.Keys == set p | p in requested && QuoteKey(p) in result.allQuotes
      && result.rates.Keys <= set p | p in requested
  {
  }

  /** Every rate carries the result's timestamp, which is the provider's or,
      when absent, the current time. */
  lemma SharedTimestamp(requested: seq<string>, data: ProviderReply, now: int)
    requires Outcome(requested, Some(data), now).Success?
    ensures var result := Outcome(requested, Some(data), now).value;
      && result.timestamp == (if data.timestamp.Some? then data.timestamp.value else now)
      && forall p :: p in result.rates ==> result.rates[p].timestamp == result.timestamp
  {
  }

  /** The remaining fields: `success` is true, `all_quotes` is the provider's
      map untouched (empty when absent), and the text fields take their defaults. */
  lemma ResultFields(requested: seq<string>, data: ProviderReply, now: int)
    requires Outcome(requested, Some(data), now).Success?
    ensures var result := Outcome(requested, Some(data), now).value;
      && result.success
      && result.allQuotes == (if data.quotes.Some? then data.quotes.value else map[])
      && result.terms == (if data.terms.Some? then data.terms.value else "N/A")
      && result.privacy == (if data.privacy.Some? then data.privacy.value else "N/A")
      && result.source == (if data.source.Some? then data.source.value else "USD")
  {
  }

  /** The provider endpoint. `reply` is the parsed body it answers each
      request with (None when the body is not JSON), and `sent` is the log
      of the requests it has received. */
  class Provider {
    const reply: Request -> Option<ProviderReply>
    ghost var sent: seq<Request>

    constructor (reply: Request -> Option<ProviderReply>)
      ensures this.reply == reply && sent == []
    {
      this.reply := reply;
      sent := [];
    }

    /** `requests.get(...).json()`: one request, logged, answered by `reply`. */
    method Get(request: Request) returns (body: Option<ProviderReply>)
      modifies this
      ensures sent == old(sent) + [request]
      ensures body == reply(request)
    {
      sent := sent + [request];
      body := reply(request);
    }
  }

  class ForexApiClient {
    const apiKey: string
    const baseUrl: string
    const supportedPairs: array<string>

    ghost predicate Valid()
      reads supportedPairs
    {
      apiKey != "" && supportedPairs[..] == SupportedPairs
    }

    constructor (apiKey: string, baseUrl: string)
      requires apiKey != ""
      ensures Valid() && fresh(supportedPairs)
      ensures this.apiKey == apiKey && this.baseUrl == baseUrl
    {
      this.apiKey := apiKey;
      this.baseUrl := baseUrl;
      var pairs := SupportedPairs;
      supportedPairs := new string[|pairs|](i requires 0 <= i < |pairs| => pairs[i]);
    }

    /** The constructor with its environment lookups as arguments: API_KEY
        must be set and non-empty, BASE_URL falls back to the default endpoint. */
    static method Create(apiKey: Option<string>, baseUrl: Option<string>)
      returns (r: Result<ForexApiClient, ConfigError>)
      ensures r.Failure? <==> apiKey.None? || apiKey.value == ""
      ensures r.Success? ==> fresh(r.value) && fresh(r.value.supportedPairs) && r.value.Valid()
      ensures r.Success? ==> r.value.apiKey == apiKey.value
      ensures r.Success? ==> r.value.baseUrl == (if baseUrl.Some? then baseUrl.value else DefaultBaseUrl)
    {
      if apiKey.None? || apiKey.value == "" {
        return Failure(ApiKeyNotFound);
      }
      var client := new ForexApiClient(apiKey.value, baseUrl.GetOr(DefaultBaseUrl));
      r := Success(client);
    }

    /** `get_rates`. Unsupported pairs are rejected before the provider is
        called; otherwise the provider receives exactly one request, and its
        reply decides the outcome. */
    method GetRates(arg: PairsArg, provider: Provider, now: int)
      returns (r: Result<FetchResult, FetchError>)
      modifies provider
      ensures var requested := Requested(arg, supportedPairs[..]);
        var invalid := InvalidPairs(requested, supportedPairs[..]);
        invalid != [] ==> r == Failure(UnsupportedPairs(invalid)) && provider.sent == old(provider.sent)
      ensures var requested := Requested(arg, supportedPairs[..]);
        var request := Request(baseUrl, apiKey, "USD", 1);
        InvalidPairs(requested, supportedPairs[..]) == [] ==>
          && r == Outcome(requested, provider.reply(request), now)
          && provider.sent == old(provider.sent) + [request]
    {
      var supported := supportedPairs[..];
      var pairs := Requested(arg, supported);
      var invalid := InvalidPairs(pairs, supported);
      if invalid != [] {
        return Failure(UnsupportedPairs(invalid));
      }

      var request := Request(baseUrl, apiKey, "USD", 1);
      var reply := provider.Get(request);
      if reply.None? {
        return Failure(InvalidJson);
      }
      var data := reply.value;
      if data.success != Some(true) {
        return Failure(ApiError(data.errorInfo.GetOr("Unknown error")));
      }

      var timestamp := data.timestamp.GetOr(now);
      var quotes := data.quotes.GetOr(map[]);
      var rates := DeriveRates(pairs, quotes, timestamp);
      if rates.Failure? {
        return Failure(DivisionByZero);
      }

      r := Success(FetchResult(
        data.success.GetOr(false),
        data.terms.GetOr("N/A"),
        data.privacy.GetOr("N/A"),
        timestamp,
        data.source.GetOr("USD"),
        rates.value,
        quotes));
    }

    /** `get_supported_pairs`: a new list with the supported pairs. */
    method GetSupportedPairs() returns (copy: array<string>)
      requires Valid()
      ensures fresh(copy) && copy[..] == SupportedPairs
    {
      var pairs := supportedPairs[..];
      copy := new string[|pairs|](i requires 0 <= i < |pairs| => pairs[i]);
    }
  }

  /** A caller that overwrites any element of the copy it was given changes
      only that copy: the client's supported pairs stay as they were. */
  method EditingCopyKeepsSupportedPairs(client: ForexApiClient, i: nat, v: string)
    returns (copy: array<string>)
    requires client.Valid() && i < |SupportedPairs|
    ensures copy[..] == SupportedPairs[i := v]
    ensures client.supportedPairs[..] == SupportedPairs
  {
    copy := client.GetSupportedPairs();
    copy[i] := v;
  }
}
