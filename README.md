# cryptocli core, modelled in Dafny

`crypto.py` is a command-line client for the CoinGecko price service. Most of it hands
arguments to `pycoingecko` and `click`; this project models the sequential logic on top:

- the resource cache (`get_resources`): only the kinds `coins` and `currencies`, a cache file
  read as it is on a hit, and on a miss the service list fetched, stored sorted and returned
  in service order;
- the option validators (`validate_coin`, `validate_currency`): first-match-wins scans of the
  cached lists with exact string equality, and the command group that runs them with the
  hard-coded defaults `bitcoin` and `usd`;
- the `search` filter: the coins whose id, symbol or name contains the term, in list order,
  or a single not-found line;
- the `config` command: an in-place update of the module-level `settings` mapping, written
  out whole to `defaults.json`;
- the `price` command's watch loop, counted exactly, with each price request as an event;
- the direction word of `gains`.

Files: `results.dfy` (Option, Result, the exceptions), `ordering.dfy` (Python's string order
and `sorted`), `coins.dfy` (validators and search), `cache.dfy` (the cache directory),
`defaults.dfy` (settings and `config`), `price.dfy` (watch loop and `gains`), `cli.dfy` (the
command group and the `search` command over the cache).

The file system is a map from resource kind to the state of its file (absent, holding a JSON
array, or empty); the price service is the `Api` value holding the two lists it would return,
and each price request is an `EmitPrice` event. `ResourceCache`, `Settings` are classes because
the source updates that state in place.

Behaviour worth knowing:

- `config` stores the given values without validating them (the TODO at crypto.py:108).
- `gains` does not reject an end date before the start date; it only computes the change.
- On a cache miss `get_resources` returns the service's order, not the sorted list it stores,
  so a second call can return the same items in a different order (`Cache.CurrenciesReordered`).
- Because the first matching coin wins, a coin's id, name and symbol all validate to that
  coin's id only when no earlier coin matches the same value (`Coins.ValidateCoinCanonical`);
  `Coins.ShadowedId` shows an id that validates to a different coin's id.
- The option defaults are the literals "bitcoin" and "usd" at crypto.py:63-64; the stored
  `settings` are not read when the options are resolved, which is why `Cli.Resolve` takes no
  settings argument. `Cli.DefaultsAreHardCoded` states that omitting an option is the same as
  giving its literal default.

## Model

| member | source | states |
|---|---|---|
| `Ordering.SortStringsCorrect` | crypto.py:44 | `sorted` of a list of strings is a sorted permutation of it, and equals it exactly when it was already sorted |
| `Coins.FirstMatch` | crypto.py:49-51 | the position found is the first coin in list order whose id, name or symbol equals the value; none exactly when no coin matches |
| `Coins.ValidateCoin` | crypto.py:47-52 | succeeds exactly when some cached coin matches on id, name or symbol, with the id of the first such coin; otherwise BadParameter with the "is not a valid cryptocurrency" message |
| `Coins.ValidateCurrency` | crypto.py:54-59 | succeeds exactly when the value is one of the cached codes and then returns it unchanged; otherwise BadParameter with the "is not a valid currency denomination" message |
| `Coins.ValidateCoinCanonical` | crypto.py:48-51 | a coin that no earlier coin shadows validates to its own id whether given by id, name or symbol |
| `Coins.ShadowedId` | crypto.py:49-51 | first match wins: a coin's own id can validate to an earlier coin whose symbol equals it |
| `Coins.ContainsAt` | crypto.py:97 | Python's `term in s` holds exactly when the term occurs in `s` at some position |
| `Coins.MatchingMembers` | crypto.py:96-98 | a coin is reported exactly when it is in the list and the term is a substring of its id, symbol or name |
| `Coins.MatchingAppend` | crypto.py:96-98 | the report keeps list order: filtering a concatenation is the concatenation of the filtered parts |
| `Coins.FindCoins` | crypto.py:95-98 | the collecting loop ends holding the filtered list, and exactly the coins the term hits |
| `Coins.SearchLines` | crypto.py:99-103 | the not-found line alone exactly when nothing matched, otherwise one echoed line per match in order |
| `Cache.Fetch` | crypto.py:30-45 | unknown kind: ValueError and nothing touched; hit: the file's content, nothing touched, no service call; miss: one service call, only that kind's file added, currencies stored as a sorted permutation and returned in service order, coins stored only when there are fewer than two, else TypeError and an empty file |
| `Cache.FetchWellTyped` | crypto.py:30-45 | every file stays a cache file of a known kind holding that kind's list, and a successful result is of the kind asked for |
| `Cache.SecondCallIsHit` | crypto.py:34-36 | the cache is never refreshed: a second call for a kind reads what the first left, changes nothing and calls no service |
| `Cache.CurrenciesReordered` | crypto.py:39-45 | after a currency miss the next call returns the same codes sorted, equal to the first result exactly when the service's list was sorted |
| `Cache.CoinsMissBreaksCache` | crypto.py:35-44 | a coin miss with two or more coins raises TypeError and every later coin lookup fails on the empty file |
| `Cache.CoinsMissExample` | crypto.py:35-44 | the same failure for a concrete list of two coins and an empty directory |
| `Cache.FetchCorrected` | crypto.py:44 | with the coin list sorted by id, a coin miss stores a sorted permutation and returns the service list; every other case is as written |
| `Cache.CorrectedCoinsReordered` | crypto.py:44 | with the correction the second coin lookup succeeds, calls no service and returns the same coins sorted by id |
| `Cache.ResourceCache.GetResources` | crypto.py:30-45 | the result and the new directory are those of `Fetch`, and the directory stays well typed |
| `Defaults.Updated` | crypto.py:110-118 | no option: the mapping is unchanged; each given option sets only its own key to the raw value; every other entry is kept |
| `Defaults.UpdatedIdempotent` | crypto.py:113-118 | applying the same options twice stores the same mapping as once |
| `Defaults.Settings.constructor` | crypto.py:14-22 | `settings` is the file's mapping, or the empty mapping with a file created holding the empty mapping (`{}`), and the file mirrors `settings` |
| `Defaults.Settings.Config` | crypto.py:109-120 | `settings` becomes the updated mapping and the file written out equals it; with no option the not-set line and the old mapping are printed, otherwise one "Setting … to" line per given option, currency before coin |
| `Price.StopCount` | crypto.py:75-81 | for a positive interval, the number of requests is the least count of at least one at which interval times count reaches the stop time in seconds |
| `Price.FirstStopUnique` | crypto.py:80 | that least count is unique |
| `Price.WatchTraceCounts` | crypto.py:77-82 | a watch of n rounds makes n requests and n-1 sleeps |
| `Price.GetPrice` | crypto.py:74-84 | without watch exactly one request; with a positive interval the trace of `StopCount` rounds; with a non-positive interval one request, followed by the ValueError of a negative sleep unless a given stop is already reached; a negative interval without a stop makes one request and then raises that ValueError |
| `Price.PercentChange` | crypto.py:158 | a zero start price divides by zero; otherwise the change times the start price is one hundred times the price difference |
| `Price.GainsWord` | crypto.py:158-159 | fails exactly on a zero start price; otherwise "increased" exactly when the price difference and the start price have the same strict sign (so a negative start price with a lower end price gives "increased"), else "decreased" |
| `Price.GainsWordPositiveStart` | crypto.py:159 | for a positive start price the word is "increased" exactly when the end price is strictly higher |
| `Price.GainsWordUnchanged` | crypto.py:159 | equal start and end prices give "decreased" |
| `Cli.Resolve` | crypto.py:47-67 | a resolved context holds the id of a cached coin that the coin option names and a currency equal to the option and present in the stored currency file |
| `Cli.DefaultsAreHardCoded` | crypto.py:63-64 | omitted options resolve exactly as "bitcoin" and "usd" given explicitly |
| `Cli.ValidateCoinOption` | crypto.py:47-52 | the coin cache is read through `get_resources`, its error passed on, its list scanned by `ValidateCoin` |
| `Cli.ValidateCurrencyOption` | crypto.py:54-59 | the currency cache is read through `get_resources`, its error passed on, its list scanned by `ValidateCurrency` |
| `Cli.ResolveContext` | crypto.py:61-67 | the context and the new directory are those `Resolve` gives |
| `Cli.Search` | crypto.py:93-103 | a cache error is passed on; otherwise the not-found line exactly when no cached coin matches, else the matches in list order |

## Left out

- The price service (`CoinGeckoAPI`): its list endpoints are the `Api` input, a price request is an `EmitPrice` event, and `info`, `history`, `list coins` and `list currencies` are pass-through or printing and are not modelled.
- Real files and JSON: the cache directory is a map and `defaults.json` an optional mapping; values of `settings` are modelled as strings only, and the paths under the home directory are not modelled.
- The "cache file does not exist" and "Config file not found" messages, the dict formatting of `click.echo`, and the `.2f` formatting of `gains`.
- click's parameter processing order: click validates options typed on the command line before defaulted ones; `Cli.Resolve` always validates the coin before the currency, which only changes which error is reported first and which cache is filled first.
- `time.sleep` is a `Sleep` event; its ValueError for a negative length is modelled.
- Price.GetPrice: requires `Price.Terminates`, so it does not model a watch with a non-negative interval and no `--stop`, or with a zero interval and a positive stop, both of which loop forever; a negative interval without `--stop` is modelled (one request, then the ValueError of the sleep).
- Price.PercentChange: exact reals in place of Python floats, so rounding is not modelled.
- `gains` fetches both prices from the service; they are inputs here, and a KeyError for a missing currency is not modelled.
- Concurrent invocations racing on the files are not modelled; the tool is single-threaded.

## Findings

| source | as written | input that shows it | evidently intended | confidence | as-written member | corrected member |
|---|---|---|---|---|---|---|
| crypto.py:39-44 | coins.json is opened for writing before `sorted(from_api)`; `sorted` cannot compare two coin dicts, so the call raises TypeError, leaves coins.json empty, and every later coin lookup fails in `json.load` | no coins.json and a service coin list of two coins | the coin list stored sorted (by id) and returned | not executed | `Cache.CoinsMissBreaksCache` | `Cache.CorrectedCoinsReordered` |

`Cache.ResourceCache.GetResources` and the commands built on it keep the behaviour as
written, so that they stay a model of the code; `Cache.FetchCorrected` is the definition a
repaired `get_resources` would follow, and it differs only on a coin miss.
The empty-file mechanism is not specific to coins: the cache file is opened for writing
(crypto.py:39) before the service is called (crypto.py:41, 43), so any exception in between,
such as a network failure, would leave an empty file for either kind; service failures are
not modelled here, since the service lists are given inputs.
