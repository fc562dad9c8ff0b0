/**
 * The user's stored defaults: the module-level `settings` mapping and the defaults.json file
 * that mirrors it, changed only by the `config` command.
 */
module Defaults {
  import opened Results

  const CurrencyKey: string := "currency"
  const CoinKey: string := "coin"
  const NothingToSet: string := "No new configurations set - existing config is:"

  /** What `config` prints: a literal line, or the whole mapping echoed. */
  datatype ConfigLine = Say(text: string) | ShowSettings(entries: map<string, string>)

  /**
   * The mapping after `config`: each given option is stored under its own key as given, with
   * no validation, and every other entry is kept.
   */
  function Updated(settings: map<string, string>, currencyDefault: Option<string>, coinDefault: Option<string>)
    : (r: map<string, string>)
    ensures currencyDefault.None? && coinDefault.None? ==> r == settings
    ensures r.Keys == settings.Keys + (if currencyDefault.Some? then {CurrencyKey} else {})
                                    + (if coinDefault.Some? then {CoinKey} else {})
    ensures currencyDefault.Some? ==> r[CurrencyKey] == currencyDefault.value
    ensures coinDefault.Some? ==> r[CoinKey] == coinDefault.value
    ensures forall k :: (k in settings && !(k == CurrencyKey && currencyDefault.Some?)
                         && !(k == CoinKey && coinDefault.Some?)) ==> r[k] == settings[k]
  {
    var withCurrency := if currencyDefault.Some? then settings[CurrencyKey := currencyDefault.value] else settings;
    if coinDefault.Some? then withCurrency[CoinKey := coinDefault.value] else withCurrency
  }

  /** Running `config` twice with the same options stores the same mapping as running it once. */
  lemma UpdatedIdempotent(settings: map<string, string>, currencyDefault: Option<string>, coinDefault: Option<string>)
    ensures Updated(Updated(settings, currencyDefault, coinDefault), currencyDefault, coinDefault)
            == Updated(settings, currencyDefault, coinDefault)
  {
  }

  class Settings {
    /** The module-level `settings` mapping. */
    var entries: map<string, string>
    /** The contents of defaults.json, None while the file does not exist. */
    var file: Option<map<string, string>>

    /** The file always holds what `settings` holds. */
    ghost predicate Valid()
      reads this
    {
      file == Some(entries)
    }

    /** The load at start-up: read the file, or create it holding the empty mapping. */
    constructor (onDisk: Option<map<string, string>>)
      ensures Valid()
      ensures onDisk.Some? ==> entries == onDisk.value
      ensures onDisk.None? ==> entries == map[]
    {
      if onDisk.Some? {
        entries := onDisk.value;
      } else {
        entries := map[];
      }
      file := Some(entries);
    }

    /** The `config` command: set the given keys, then write the whole mapping out. */
    method Config(currencyDefault: Option<string>, coinDefault: Option<string>) returns (lines: seq<ConfigLine>)
      requires Valid()
      modifies this
      ensures Valid()
      ensures entries == Updated(old(entries), currencyDefault, coinDefault)
      ensures file == Some(Updated(old(entries), currencyDefault, coinDefault))
      ensures currencyDefault.None? && coinDefault.None? ==> lines == [Say(NothingToSet), ShowSettings(old(entries))]
      ensures currencyDefault.Some? || coinDefault.Some? ==>
                |lines| == (if currencyDefault.Some? then 1 else 0) + (if coinDefault.Some? then 1 else 0)
      ensures currencyDefault.Some? ==> lines[0] == Say("Setting currency to " + currencyDefault.value)
      ensures coinDefault.Some? ==> lines[|lines| - 1] == Say("Setting coin to " + coinDefault.value)
    {
      lines := [];
      if currencyDefault.None? && coinDefault.None? {
        lines := lines + [Say(NothingToSet), ShowSettings(entries)];
      }
      if currencyDefault.Some? {
        entries := entries[CurrencyKey := currencyDefault.value];
        lines := lines + [Say("Setting currency to " + currencyDefault.value)];
      }
      if coinDefault.Some? {
        entries := entries[CoinKey := coinDefault.value];
        lines := lines + [Say("Setting coin to " + coinDefault.value)];
      }
      file := Some(entries);
    }
  }
}
