/**
 * The command group: the `--coin` and `--currency` options resolved through their validators
 * against the resource cache, and the `search` command over the cached coins.
 */
module Cli {
  import opened Results
  import opened Coins
  import opened Cache
  import opened Price

  /** The option defaults are fixed in the command group; stored settings never take their place. */
  const DefaultCoin: string := "bitcoin"
  const DefaultCurrency: string := "usd"

  function OrDefault(arg: Option<string>, default: string): string
  {
    if arg.Some? then arg.value else default
  }

  function CoinsOf(res: Resource): seq<Coin>
  {
    match res
    case CoinList(coins) => coins
    case CurrencyList(_) => []
  }

  function CodesOf(res: Resource): seq<string>
  {
    match res
    case CoinList(_) => []
    case CurrencyList(codes) => codes
  }

  /** The option callback `validate_coin`: read the coin cache, then scan it. */
  function CoinCallback(got: Result<Resource>, value: string): Result<string>
  {
    match got
    case Err(e) => Err(e)
    case Ok(res) => ValidateCoin(CoinsOf(res), value)
  }

  /** The option callback `validate_currency`: read the currency cache, then scan it. */
  function CurrencyCallback(got: Result<Resource>, value: string): Result<string>
  {
    match got
    case Err(e) => Err(e)
    case Ok(res) => ValidateCurrency(CodesOf(res), value)
  }

  datatype Resolved = Resolved(context: Result<Context>, files: map<string, CacheFile>)

  /**
   * The command group: the coin option, then the currency option, each through its callback.
   * A resolved context names a coin present in the coin file and a code present in the currency
   * file as they stand afterwards.
   */
  function Resolve(files: map<string, CacheFile>, api: Api, coinArg: Option<string>, currencyArg: Option<string>)
    : (r: Resolved)
    requires WellTyped(files)
    ensures WellTyped(r.files)
    ensures r.context.Ok? ==>
              && CoinsKind in r.files && r.files[CoinsKind].Written?
              && (exists c :: c in CoinsOf(r.files[CoinsKind].content)
                              && c.id == r.context.value.coin && Names(c, OrDefault(coinArg, DefaultCoin)))
              && CurrenciesKind in r.files && r.files[CurrenciesKind].Written?
              && r.context.value.currency in CodesOf(r.files[CurrenciesKind].content)
              && r.context.value.currency == OrDefault(currencyArg, DefaultCurrency)
  {
    var first := Fetch(files, CoinsKind, api);
    FetchWellTyped(files, CoinsKind, api);
    var coin := CoinCallback(first.result, OrDefault(coinArg, DefaultCoin));
    if coin.Err? then Resolved(Err(coin.error), first.files)
    else
      var second := Fetch(first.files, CurrenciesKind, api);
      FetchWellTyped(first.files, CurrenciesKind, api);
      var currency := CurrencyCallback(second.result, OrDefault(currencyArg, DefaultCurrency));
      if currency.Err? then Resolved(Err(currency.error), second.files)
      else
        var stored := CodesOf(second.files[CurrenciesKind].content);
        assert currency.value in CodesOf(second.result.value);
        assert multiset(stored) == multiset(CodesOf(second.result.value));
        assert currency.value in multiset(stored);
        Resolved(Ok(Context(coin.value, currency.value)), second.files)
  }

  /** Omitted options resolve exactly as the hard-coded "bitcoin" and "usd" would. */
  lemma DefaultsAreHardCoded(files: map<string, CacheFile>, api: Api)
    requires WellTyped(files)
    ensures Resolve(files, api, None, None) == Resolve(files, api, Some("bitcoin"), Some("usd"))
  {
  }

  /** `validate_coin` as click runs it for the `--coin` option. */
  method ValidateCoinOption(cache: ResourceCache, api: Api, value: string) returns (r: Result<string>)
    requires cache.Valid()
    modifies cache
    ensures cache.Valid()
    ensures cache.files == Fetch(old(cache.files), CoinsKind, api).files
    ensures r == CoinCallback(Fetch(old(cache.files), CoinsKind, api).result, value)
  {
    var got := cache.GetResources(CoinsKind, api);
    if got.Err? {
      return Err(got.error);
    }
    r := ValidateCoin(got.value.coins, value);
  }

  /** `validate_currency` as click runs it for the `--currency` option. */
  method ValidateCurrencyOption(cache: ResourceCache, api: Api, value: string) returns (r: Result<string>)
    requires cache.Valid()
    modifies cache
    ensures cache.Valid()
    ensures cache.files == Fetch(old(cache.files), CurrenciesKind, api).files
    ensures r == CurrencyCallback(Fetch(old(cache.files), CurrenciesKind, api).result, value)
  {
    var got := cache.GetResources(CurrenciesKind, api);
    if got.Err? {
      return Err(got.error);
    }
    r := ValidateCurrency(got.value.codes, value);
  }

  /** The command group `main`: resolve both options and build the invocation context. */
  method ResolveContext(cache: ResourceCache, api: Api, coinArg: Option<string>, currencyArg: Option<string>)
    returns (r: Result<Context>)
    requires cache.Valid()
    modifies cache
    ensures cache.Valid()
    ensures Resolved(r, cache.files) == Resolve(old(cache.files), api, coinArg, currencyArg)
  {
    var coin := ValidateCoinOption(cache, api, OrDefault(coinArg, DefaultCoin));
    if coin.Err? {
      return Err(coin.error);
    }
    var currency := ValidateCurrencyOption(cache, api, OrDefault(currencyArg, DefaultCurrency));
    if currency.Err? {
      return Err(currency.error);
    }
    r := Ok(Context(coin.value, currency.value));
  }

  /** The `search` command: read the coin cache, then report the coins the term hits. */
  method Search(cache: ResourceCache, api: Api, term: string) returns (r: Result<seq<Line>>)
    requires cache.Valid()
    modifies cache
    ensures cache.Valid()
    ensures cache.files == Fetch(old(cache.files), CoinsKind, api).files
    ensures var got := Fetch(old(cache.files), CoinsKind, api).result;
            && (got.Err? ==> r == Err(got.error))
            && (got.Ok? ==> r.Ok?)
            && (got.Ok? && Matching(CoinsOf(got.value), term) == [] ==> r.value == [Text(NotFoundMessage)])
            && (got.Ok? && Matching(CoinsOf(got.value), term) != [] ==>
                  |r.value| == |Matching(CoinsOf(got.value), term)|
                  && forall i :: 0 <= i < |r.value| ==> r.value[i] == CoinLine(Matching(CoinsOf(got.value), term)[i]))
  {
    var got := cache.GetResources(CoinsKind, api);
    if got.Err? {
      return Err(got.error);
    }
    var lines := SearchLines(got.value.coins, term);
    r := Ok(lines);
  }
}
