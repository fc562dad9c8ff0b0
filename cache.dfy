/**
 * The resource cache behind `get_resources`: one JSON file per resource kind under the
 * CLI's directory, filled from the price service the first time it is missing and never
 * refreshed afterwards. The directory is a map from kind to the state of that kind's file;
 * a kind absent from the map has no file.
 */
module Cache {
  import opened Results
  import opened Ordering
  import opened Coins

  const CoinsKind: string := "coins"
  const CurrenciesKind: string := "currencies"

  /** The only two kinds `get_resources` accepts. */
  predicate IsKind(kind: string)
  {
    kind == CoinsKind || kind == CurrenciesKind
  }

  /** The parsed contents of a cache file. */
  datatype Resource = CoinList(coins: seq<Coin>) | CurrencyList(codes: seq<string>)

  /**
   * A cache file that exists: it holds the JSON array dumped into it, or it is empty because
   * the dump raised after the file had been opened for writing.
   */
  datatype CacheFile = Written(content: Resource) | Emptied

  /** What the two list endpoints of the price service return. */
  datatype Api = Api(coinsList: seq<Coin>, vsCurrencies: seq<string>)

  /** The outcome of one `get_resources` call: its result, the directory after it, and whether the service was called. */
  datatype Fetched = Fetched(result: Result<Resource>, files: map<string, CacheFile>, calledApi: bool)

  /** Every file is a cache file of a known kind, and each holds the list of its own kind. */
  predicate WellTyped(files: map<string, CacheFile>)
  {
    forall k :: k in files ==>
      IsKind(k) && (files[k].Written? ==> (files[k].content.CoinList? <==> k == CoinsKind))
  }

  /** `json.load` of a cache file. */
  function Read(file: CacheFile): Result<Resource>
  {
    match file
    case Written(content) => Ok(content)
    case Emptied => Err(MalformedJson)
  }

  function CoinId(c: Coin): string { c.id }

  /**
   * `get_resources` as written. On a miss the file is opened for writing before the list is
   * sorted; `sorted` cannot compare two coin dicts, so a coin list of two or more entries
   * raises and leaves the file empty. Currencies are stored sorted and returned in service order.
   */
  function Fetch(files: map<string, CacheFile>, kind: string, api: Api): (r: Fetched)
    ensures !IsKind(kind) ==> r == Fetched(Err(InvalidResource), files, false)
    ensures IsKind(kind) && kind in files ==> r == Fetched(Read(files[kind]), files, false)
    ensures IsKind(kind) && kind !in files ==>
              r.calledApi && r.files.Keys == files.Keys + {kind}
              && forall k :: k in files ==> r.files[k] == files[k]
    ensures kind == CurrenciesKind && kind !in files ==>
              && r.result == Ok(CurrencyList(api.vsCurrencies))
              && r.files[kind].Written? && r.files[kind].content.CurrencyList?
              && SortedBy(r.files[kind].content.codes, Id)
              && multiset(r.files[kind].content.codes) == multiset(api.vsCurrencies)
    ensures kind == CoinsKind && kind !in files && |api.coinsList| <= 1 ==>
              r.result == Ok(CoinList(api.coinsList)) && r.files[kind] == Written(CoinList(api.coinsList))
    ensures kind == CoinsKind && kind !in files && |api.coinsList| >= 2 ==>
              r.result == Err(Unorderable) && r.files[kind] == Emptied
  {
    if !IsKind(kind) then Fetched(Err(InvalidResource), files, false)
    else if kind in files then Fetched(Read(files[kind]), files, false)
    else if kind == CoinsKind then
      if |api.coinsList| <= 1 then
        Fetched(Ok(CoinList(api.coinsList)), files[kind := Written(CoinList(api.coinsList))], true)
      else
        Fetched(Err(Unorderable), files[kind := Emptied], true)
    else
      SortStringsCorrect(api.vsCurrencies);
      Fetched(Ok(CurrencyList(api.vsCurrencies)),
              files[kind := Written(CurrencyList(SortStrings(api.vsCurrencies)))], true)
  }

  /** `get_resources` keeps every file a well-typed cache file. */
  lemma FetchWellTyped(files: map<string, CacheFile>, kind: string, api: Api)
    requires WellTyped(files)
    ensures WellTyped(Fetch(files, kind, api).files)
    ensures IsKind(kind) && Fetch(files, kind, api).result.Ok? ==>
              (Fetch(files, kind, api).result.value.CoinList? <==> kind == CoinsKind)
  {
  }

  /** The cache is never refreshed: the second call for a kind reads the file the first left and calls no service. */
  lemma SecondCallIsHit(files: map<string, CacheFile>, kind: string, api: Api, later: Api)
    requires IsKind(kind)
    ensures var first := Fetch(files, kind, api);
            var second := Fetch(first.files, kind, later);
            !second.calledApi && second.files == first.files
            && second.result == Read(first.files[kind])
  {
  }

  /**
   * A currency miss returns the service order and stores the sorted order, so the next call
   * returns the same codes differently ordered, and the same list exactly when the service's
   * list was already sorted.
   */
  lemma CurrenciesReordered(files: map<string, CacheFile>, api: Api, later: Api)
    requires CurrenciesKind !in files
    ensures var first := Fetch(files, CurrenciesKind, api);
            var second := Fetch(first.files, CurrenciesKind, later);
            && first.result == Ok(CurrencyList(api.vsCurrencies))
            && second.result == Ok(CurrencyList(SortStrings(api.vsCurrencies)))
            && multiset(second.result.value.codes) == multiset(first.result.value.codes)
            && (second.result == first.result <==> SortedBy(api.vsCurrencies, Id))
  {
    SortStringsCorrect(api.vsCurrencies);
  }

  /**
   * As written, a coin miss with two or more coins fails, and from then on every call for
   * coins fails on the empty file, whatever the service would return.
   */
  lemma CoinsMissBreaksCache(files: map<string, CacheFile>, api: Api, later: Api)
    requires CoinsKind !in files && |api.coinsList| >= 2
    ensures var first := Fetch(files, CoinsKind, api);
            var second := Fetch(first.files, CoinsKind, later);
            first.result == Err(Unorderable) && second.result == Err(MalformedJson)
            && second.files == first.files
  {
  }

  /** A concrete instance: two coins from the service and an empty cache directory. */
  lemma CoinsMissExample()
    ensures var api := Api([Coin("bitcoin", "btc", "Bitcoin"), Coin("ethereum", "eth", "Ethereum")], []);
            var first := Fetch(map[], CoinsKind, api);
            first.result == Err(Unorderable)
            && Fetch(first.files, CoinsKind, api).result == Err(MalformedJson)
  {
  }

  /** `get_resources` with the coin list sorted by id, the order the cache file is meant to hold. */
  function FetchCorrected(files: map<string, CacheFile>, kind: string, api: Api): (r: Fetched)
    ensures kind != CoinsKind || kind in files ==> r == Fetch(files, kind, api)
    ensures kind == CoinsKind && kind !in files ==>
              && r.calledApi && r.result == Ok(CoinList(api.coinsList))
              && r.files.Keys == files.Keys + {kind}
              && (forall k :: k in files ==> r.files[k] == files[k])
              && r.files[kind].Written? && r.files[kind].content.CoinList?
              && SortedBy(r.files[kind].content.coins, CoinId)
              && multiset(r.files[kind].content.coins) == multiset(api.coinsList)
  {
    if kind == CoinsKind && kind !in files then
      SortBySorted(api.coinsList, CoinId);
      SortByPermutes(api.coinsList, CoinId);
      Fetched(Ok(CoinList(api.coinsList)),
              files[kind := Written(CoinList(SortBy(api.coinsList, CoinId)))], true)
    else Fetch(files, kind, api)
  }

  /** With the correction, a coin miss succeeds and the next call returns the same coins sorted by id. */
  lemma CorrectedCoinsReordered(files: map<string, CacheFile>, api: Api, later: Api)
    requires CoinsKind !in files
    ensures var first := FetchCorrected(files, CoinsKind, api);
            var second := FetchCorrected(first.files, CoinsKind, later);
            && first.result == Ok(CoinList(api.coinsList))
            && !second.calledApi && second.result.Ok? && second.result.value.CoinList?
            && SortedBy(second.result.value.coins, CoinId)
            && multiset(second.result.value.coins) == multiset(api.coinsList)
  {
  }

  /** The cache directory, which `get_resources` changes on a miss. */
  class ResourceCache {
    var files: map<string, CacheFile>

    ghost predicate Valid()
      reads this
    {
      WellTyped(files)
    }

    constructor (existing: map<string, CacheFile>)
      requires WellTyped(existing)
      ensures Valid() && files == existing
    {
      files := existing;
    }

    /** `get_resources(kind)`, reading the service lists from `api` on a miss. */
    method GetResources(kind: string, api: Api) returns (r: Result<Resource>)
      requires Valid()
      modifies this
      ensures Valid()
      ensures r == Fetch(old(files), kind, api).result
      ensures files == Fetch(old(files), kind, api).files
      ensures IsKind(kind) && r.Ok? ==> (r.value.CoinList? <==> kind == CoinsKind)
    {
      FetchWellTyped(files, kind, api);
      if !IsKind(kind) {
        return Err(InvalidResource);
      }
      if kind in files {
        return Read(files[kind]);
      }
      if kind == CoinsKind {
        if |api.coinsList| <= 1 {
          files := files[kind := Written(CoinList(api.coinsList))];
          r := Ok(CoinList(api.coinsList));
        } else {
          files := files[kind := Emptied];
          r := Err(Unorderable);
        }
      } else {
        files := files[kind := Written(CurrencyList(SortStrings(api.vsCurrencies)))];
        r := Ok(CurrencyList(api.vsCurrencies));
      }
    }
  }
}
