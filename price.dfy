/**
 * The `price` command's watch loop, with each price request abstracted to an event, and the
 * direction word of the `gains` command.
 */
module Price {
  import opened Results

  /** The coin and currency resolved once per invocation. */
  datatype Context = Context(coin: string, currency: string)

  /** One step the command takes: request and print a price, or sleep between two requests. */
  datatype Event = EmitPrice(coin: string, currency: string) | Sleep(seconds: int)

  const SecondsPerMinute: int := 60

  /** The break test of the watch loop after `n` requests. */
  predicate StopReached(interval: int, stopMinutes: int, n: int)
  {
    interval * n >= stopMinutes * SecondsPerMinute
  }

  /** `n` is the first request count, counting from one, at which the loop breaks. */
  predicate FirstStop(interval: int, stopMinutes: int, n: int)
  {
    n >= 1 && StopReached(interval, stopMinutes, n)
    && forall k :: 1 <= k < n ==> !StopReached(interval, stopMinutes, k)
  }

  /**
   * The watch loop ends. With a negative interval the first sleep raises; otherwise it needs a
   * stop time, and with a zero interval that stop time must already be reached, or it sleeps
   * for nothing forever.
   */
  predicate Terminates(watch: bool, interval: int, stop: Option<int>)
  {
    !watch || interval < 0 || (stop.Some? && (interval != 0 || stop.value <= 0))
  }

  /** The number of requests a watch with a positive interval makes: the ceiling of stop time over interval, and at least one. */
  function StopCount(interval: int, stopMinutes: int): (n: int)
    requires interval > 0
    ensures FirstStop(interval, stopMinutes, n)
  {
    var total := stopMinutes * SecondsPerMinute;
    if total <= interval then 1
    else
      var q := (total + interval - 1) / interval;
      assert q * interval <= total + interval - 1 < (q + 1) * interval;
      forall k | 1 <= k < q ensures !StopReached(interval, stopMinutes, k) {
        assert interval * k <= interval * (q - 1);
      }
      q
  }

  /** The first stop is unique. */
  lemma FirstStopUnique(interval: int, stopMinutes: int, n: int, m: int)
    requires FirstStop(interval, stopMinutes, n) && FirstStop(interval, stopMinutes, m)
    ensures n == m
  {
  }

  /** `n` requests with a sleep of `interval` seconds between each two. */
  function WatchTrace(ctx: Context, n: nat, interval: int): seq<Event>
  {
    if n <= 1 then [EmitPrice(ctx.coin, ctx.currency)]
    else WatchTrace(ctx, n - 1, interval) + [Sleep(interval), EmitPrice(ctx.coin, ctx.currency)]
  }

  function Requests(trace: seq<Event>): nat
  {
    if trace == [] then 0
    else Requests(trace[..|trace| - 1]) + (if trace[|trace| - 1].EmitPrice? then 1 else 0)
  }

  function Sleeps(trace: seq<Event>): nat
  {
    if trace == [] then 0
    else Sleeps(trace[..|trace| - 1]) + (if trace[|trace| - 1].Sleep? then 1 else 0)
  }

  /** A watch trace of `n` rounds makes `n` requests and sleeps `n - 1` times. */
  lemma {:induction false} WatchTraceCounts(ctx: Context, n: nat, interval: int)
    requires n >= 1
    ensures Requests(WatchTrace(ctx, n, interval)) == n
    ensures Sleeps(WatchTrace(ctx, n, interval)) == n - 1
  {
    if n > 1 {
      var prev := WatchTrace(ctx, n - 1, interval);
      var t := prev + [Sleep(interval), EmitPrice(ctx.coin, ctx.currency)];
      assert t[..|t| - 1] == prev + [Sleep(interval)];
      assert (prev + [Sleep(interval)])[..|prev|] == prev;
      WatchTraceCounts(ctx, n - 1, interval);
    } else {
      var t := WatchTrace(ctx, n, interval);
      assert t[..|t| - 1] == [];
    }
  }

  /** The `price` command: one request, or the watch loop until its stop time. */
  method GetPrice(ctx: Context, watch: bool, interval: int, stop: Option<int>)
    returns (trace: seq<Event>, outcome: Result<()>)
    requires Terminates(watch, interval, stop)
    ensures !watch ==> trace == [EmitPrice(ctx.coin, ctx.currency)] && outcome == Ok(())
    ensures watch && interval > 0 ==>
              trace == WatchTrace(ctx, StopCount(interval, stop.value), interval) && outcome == Ok(())
    ensures watch && interval <= 0 && stop.Some? && StopReached(interval, stop.value, 1) ==>
              trace == [EmitPrice(ctx.coin, ctx.currency)] && outcome == Ok(())
    ensures watch && interval <= 0 && stop.Some? && !StopReached(interval, stop.value, 1) ==>
              trace == [EmitPrice(ctx.coin, ctx.currency)] && outcome == Err(NegativeSleep)
    ensures watch && interval < 0 && stop.None? ==>
              trace == [EmitPrice(ctx.coin, ctx.currency)] && outcome == Err(NegativeSleep)
  {
    outcome := Ok(());
    var numLoops := 0;
    if watch {
      trace := [];
      while true
        invariant numLoops >= 0
        invariant stop.None? ==> numLoops == 0
        invariant numLoops == 0 ==> trace == []
        invariant numLoops > 0 ==> interval > 0 && trace == WatchTrace(ctx, numLoops, interval) + [Sleep(interval)]
        invariant stop.Some? ==> forall k :: 1 <= k <= numLoops ==> !StopReached(interval, stop.value, k)
        invariant outcome == Ok(())
        decreases if stop.Some? then stop.value * SecondsPerMinute - interval * numLoops else 1 - numLoops
      {
        numLoops := numLoops + 1;
        trace := trace + [EmitPrice(ctx.coin, ctx.currency)];
        if stop.Some? && interval * numLoops >= stop.value * SecondsPerMinute {
          break;
        }
        if interval < 0 {
          // time.sleep refuses a negative length
          outcome := Err(NegativeSleep);
          break;
        }
        trace := trace + [Sleep(interval)];
      }
      if interval > 0 && outcome.Ok? {
        assert FirstStop(interval, stop.value, numLoops);
        FirstStopUnique(interval, stop.value, numLoops, StopCount(interval, stop.value));
      }
    } else {
      trace := [EmitPrice(ctx.coin, ctx.currency)];
    }
  }

  /** `percent_change` of `gains`, on exact numbers; a zero start price divides by zero. */
  function PercentChange(startPrice: real, endPrice: real): (r: Result<real>)
    ensures r.Err? <==> startPrice == 0.0
    ensures r.Err? ==> r.error == ZeroDivision
    ensures r.Ok? ==> r.value * startPrice == (endPrice - startPrice) * 100.0
  {
    if startPrice == 0.0 then Err(ZeroDivision) else Ok((endPrice - startPrice) / startPrice * 100.0)
  }

  /** The direction word of `gains`: "increased" only for a strictly positive change. */
  function GainsWord(startPrice: real, endPrice: real): (r: Result<string>)
    ensures r.Err? <==> startPrice == 0.0
    ensures r.Ok? ==> r.value == "increased" || r.value == "decreased"
    ensures r.Ok? ==> (r.value == "increased" <==> (endPrice - startPrice) * startPrice > 0.0)
  {
    match PercentChange(startPrice, endPrice)
    case Err(e) => Err(e)
    case Ok(change) =>
      assert change * startPrice == (endPrice - startPrice) * 100.0;
      assert change > 0.0 <==> (endPrice - startPrice) * startPrice > 0.0 by {
        if startPrice > 0.0 {
          assert change > 0.0 <==> endPrice - startPrice > 0.0;
        } else {
          assert change > 0.0 <==> endPrice - startPrice < 0.0;
        }
      }
      Ok(if change > 0.0 then "increased" else "decreased")
  }

  /** For a positive start price the word is "increased" exactly when the end price is higher. */
  lemma GainsWordPositiveStart(startPrice: real, endPrice: real)
    requires startPrice > 0.0
    ensures GainsWord(startPrice, endPrice) == Ok(if endPrice > startPrice then "increased" else "decreased")
  {
  }

  /** Equal start and end prices report "decreased": there is no separate word for no change. */
  lemma GainsWordUnchanged(price: real)
    requires price != 0.0
    ensures GainsWord(price, price) == Ok("decreased")
  {
  }
}
