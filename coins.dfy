/**
 * Coin records and the read-only scans over the cached lists: the two option validators and
 * the substring filter of the `search` command.
 */
module Coins {
  import opened Results

  /** An entry of the coin list, as the price service returns it. */
  datatype Coin = Coin(id: string, symbol: string, name: string)

  /** What the CLI prints: a literal line, or one coin record echoed as it is. */
  datatype Line = Text(text: string) | CoinLine(coin: Coin)

  const NotFoundMessage: string := "Sorry, no cryptocurrencies or tokens found matching that string :("

  /** The test of `validate_coin`: exact, case-sensitive equality with the id, the name or the symbol. */
  predicate Names(c: Coin, value: string)
  {
    value == c.id || value == c.name || value == c.symbol
  }

  /** Position of the first coin in list order that `value` names. */
  function FirstMatch(coins: seq<Coin>, value: string): (r: Option<nat>)
    ensures r.Some? ==> r.value < |coins| && Names(coins[r.value], value)
    ensures r.Some? ==> forall j :: 0 <= j < r.value ==> !Names(coins[j], value)
    ensures r.None? <==> forall j :: 0 <= j < |coins| ==> !Names(coins[j], value)
  {
    if coins == [] then None
    else if Names(coins[0], value) then Some(0)
    else match FirstMatch(coins[1..], value) {
      case None => None
      case Some(i) => Some(i + 1)
    }
  }

  /**
   * `validate_coin`: the id of the first cached coin that `value` names, or BadParameter when
   * no coin does.
   */
  function ValidateCoin(coins: seq<Coin>, value: string): (r: Result<string>)
    ensures r.Ok? <==> exists i :: 0 <= i < |coins| && Names(coins[i], value)
    ensures r.Ok? ==> exists i :: 0 <= i < |coins| && r.value == coins[i].id && Names(coins[i], value)
                                  && forall j :: 0 <= j < i ==> !Names(coins[j], value)
    ensures r.Err? ==> r.error == BadParameter(value + " is not a valid cryptocurrency")
  {
    match FirstMatch(coins, value)
    case Some(i) => Ok(coins[i].id)
    case None => Err(BadParameter(value + " is not a valid cryptocurrency"))
  }

  /** `validate_currency`: a scan of the cached codes that hands `value` back on the first equal one. */
  function ValidateCurrency(currencies: seq<string>, value: string): (r: Result<string>)
    ensures r.Ok? <==> value in currencies
    ensures r.Ok? ==> r.value == value
    ensures r.Err? ==> r.error == BadParameter(value + " is not a valid currency denomination")
  {
    if currencies == [] then Err(BadParameter(value + " is not a valid currency denomination"))
    else if value == currencies[0] then Ok(value)
    else ValidateCurrency(currencies[1..], value)
  }

  /**
   * A coin that no earlier coin shadows validates to its own id when it is given by id, by
   * name or by symbol.
   */
  lemma ValidateCoinCanonical(coins: seq<Coin>, i: nat, value: string)
    requires i < |coins|
    requires value == coins[i].id || value == coins[i].name || value == coins[i].symbol
    requires forall j :: 0 <= j < i ==> !Names(coins[j], value)
    ensures ValidateCoin(coins, value) == Ok(coins[i].id)
  {
  }

  /**
   * First match wins, so a coin's own id need not validate to that id: here an earlier coin whose
   * symbol is "bitcoin" takes the match.
   */
  lemma ShadowedId()
    ensures ValidateCoin([Coin("wrapped", "bitcoin", "Wrapped"), Coin("bitcoin", "btc", "Bitcoin")], "bitcoin")
            == Ok("wrapped")
  {
  }

  /** `t` is a prefix of `s`. */
  predicate IsPrefix(t: string, s: string)
  {
    |t| <= |s| && s[..|t|] == t
  }

  /** Python's `t in s` on strings. */
  predicate Contains(s: string, t: string)
  {
    IsPrefix(t, s) || (s != [] && Contains(s[1..], t))
  }

  /** `t` occurs in `s` starting at position `i`. */
  predicate OccursAt(s: string, t: string, i: int)
  {
    0 <= i && i + |t| <= |s| && s[i..i + |t|] == t
  }

  /** `t in s` holds exactly when `t` occurs in `s` at some position. */
  lemma {:induction false} ContainsAt(s: string, t: string)
    ensures Contains(s, t) <==> exists i :: OccursAt(s, t, i)
  {
    if Contains(s, t) {
      if IsPrefix(t, s) {
        assert OccursAt(s, t, 0);
      } else {
        ContainsAt(s[1..], t);
        var i :| OccursAt(s[1..], t, i);
        assert s[1..][i..i + |t|] == s[i + 1..i + 1 + |t|];
        assert OccursAt(s, t, i + 1);
      }
    }
    if exists i :: OccursAt(s, t, i) {
      var i :| OccursAt(s, t, i);
      if i == 0 {
        assert IsPrefix(t, s);
      } else {
        assert s[1..][i - 1..i - 1 + |t|] == s[i..i + |t|];
        assert OccursAt(s[1..], t, i - 1);
        ContainsAt(s[1..], t);
      }
    }
  }

  /** The test of `search`: the term occurs in the id, the symbol or the name. */
  predicate SearchHit(c: Coin, term: string)
  {
    Contains(c.id, term) || Contains(c.symbol, term) || Contains(c.name, term)
  }

  /** The coins that `search` reports, in list order. */
  function Matching(coins: seq<Coin>, term: string): seq<Coin>
  {
    if coins == [] then []
    else
      var last := coins[|coins| - 1];
      Matching(coins[..|coins| - 1], term) + (if SearchHit(last, term) then [last] else [])
  }

  /** The report holds exactly the cached coins that the term hits. */
  lemma {:induction false} MatchingMembers(coins: seq<Coin>, term: string)
    ensures forall c :: c in Matching(coins, term) <==> c in coins && SearchHit(c, term)
  {
    if coins != [] {
      MatchingMembers(coins[..|coins| - 1], term);
      assert coins == coins[..|coins| - 1] + [coins[|coins| - 1]];
    }
  }

  /** The report keeps list order: filtering a concatenation concatenates the filtered parts. */
  lemma {:induction false} MatchingAppend(a: seq<Coin>, b: seq<Coin>, term: string)
    ensures Matching(a + b, term) == Matching(a, term) + Matching(b, term)
  {
    if b != [] {
      MatchingAppend(a, b[..|b| - 1], term);
      assert (a + b)[..|a + b| - 1] == a + b[..|b| - 1];
    } else {
      assert a + b == a;
    }
  }

  /** The loop of `search` that collects the hits. */
  method FindCoins(coins: seq<Coin>, term: string) returns (found: seq<Coin>)
    ensures found == Matching(coins, term)
    ensures forall c :: c in found <==> c in coins && SearchHit(c, term)
  {
    found := [];
    for i := 0 to |coins|
      invariant found == Matching(coins[..i], term)
    {
      assert coins[..i + 1][..i] == coins[..i];
      if SearchHit(coins[i], term) {
        found := found + [coins[i]];
      }
    }
    assert coins[..|coins|] == coins;
    MatchingMembers(coins, term);
  }

  /**
   * `search` over a coin list: every hit echoed in list order, or the one not-found line exactly
   * when there is no hit.
   */
  method SearchLines(coins: seq<Coin>, term: string) returns (lines: seq<Line>)
    ensures Matching(coins, term) == [] ==> lines == [Text(NotFoundMessage)]
    ensures Matching(coins, term) != [] ==>
              |lines| == |Matching(coins, term)|
              && forall i :: 0 <= i < |lines| ==> lines[i] == CoinLine(Matching(coins, term)[i])
  {
    var found := FindCoins(coins, term);
    if |found| == 0 {
      lines := [Text(NotFoundMessage)];
    } else {
      lines := [];
      for i := 0 to |found|
        invariant |lines| == i
        invariant forall k :: 0 <= k < i ==> lines[k] == CoinLine(found[k])
      {
        lines := lines + [CoinLine(found[i])];
      }
    }
  }
}
