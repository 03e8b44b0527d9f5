/**
 * The gold-price route: a process-wide cached quote, fresh for five minutes,
 * and on a miss four tiers that always end in a price per gram in Rupiah:
 * the spot price converted by the exchange rate, a synthetic estimate around
 * a base price, a fixed default, and on an unexpected failure the last cached
 * price. The two HTTP fetches and `Math.random` are inputs.
 */
module GoldPrice {
  import opened Common

  const CACHE_DURATION: int := 5 * 60 * 1000
  const TROY_OUNCE_GRAMS: real := 31.1035
  const FALLBACK_RATE: real := 15500.0
  const BASE_PRICE: real := 1150000.0
  const DEFAULT_PRICE: real := 1150000.0

  datatype Quote = Quote(price: real, timestamp: int)

  /** Outcome of the exchange-rate fetch; `idr` is absent when the reply lacks the rate. */
  datatype ExchangeReply = ExchangeFailed | ExchangeOk(idr: Option<real>)

  datatype Response = Response(pricePerGram: real, cached: bool, lastUpdated: int, estimated: bool, error: bool)

  /** JavaScript truthiness of `number | null`. */
  predicate Truthy(p: Option<real>)
  {
    p.Some? && p.value != 0.0
  }

  /** `Math.round`: halves round up. */
  function Round(x: real): (r: int)
    ensures x - 0.5 < r as real <= x + 0.5
  {
    (x + 0.5).Floor
  }

  /** The exchange rate used: the reply's rate, or 15500 when it is missing or zero. */
  function RateOf(idr: Option<real>): (rate: real)
    ensures Truthy(idr) ==> rate == idr.value
    ensures !Truthy(idr) ==> rate == FALLBACK_RATE
  {
    if Truthy(idr) then idr.value else FALLBACK_RATE
  }

  /** USD per troy ounce to Rupiah per gram at the given rate. */
  function PerGram(usdPerOunce: real, rate: real): (idrPerGram: real)
    ensures idrPerGram * TROY_OUNCE_GRAMS == usdPerOunce * rate
  {
    usdPerOunce * rate / TROY_OUNCE_GRAMS
  }

  /**
   * First tier: the spot price in USD per troy ounce (`None` when its fetch
   * failed) converted to Rupiah per gram; nothing unless both fetches succeed.
   */
  function PrimaryTier(spot: Option<real>, exchange: ExchangeReply): (r: Option<real>)
    ensures r.Some? <==> spot.Some? && exchange.ExchangeOk?
    ensures r.Some? ==> r.value * TROY_OUNCE_GRAMS == spot.value * RateOf(exchange.idr)
  {
    if spot.Some? && exchange.ExchangeOk? then
      Some(PerGram(spot.value, RateOf(exchange.idr)))
    else
      None
  }

  /** Second tier: the base price plus a jitter of `(random - 0.5) * 20000`, rounded. */
  function EstimateTier(random: real): (r: real)
    requires 0.0 <= random < 1.0
    ensures 1140000.0 <= r <= 1160000.0
    ensures r.Floor as real == r
  {
    var variation := (random - 0.5) * 20000.0;
    Round(BASE_PRICE + variation) as real
  }

  predicate IsFresh(cache: Option<Quote>, now: int)
  {
    cache.Some? && now - cache.value.timestamp < CACHE_DURATION
  }

  /**
   * One GET against the cache: the response and the cache afterwards.
   * `outerFailure` stands for an exception escaping the handler before the
   * cache is written.
   */
  function Respond(cache: Option<Quote>, now: int, spot: Option<real>, exchange: ExchangeReply,
                   random: real, outerFailure: bool): (out: (Response, Option<Quote>))
    requires 0.0 <= random < 1.0
    ensures !outerFailure && !IsFresh(cache, now) ==> out.1 == Some(Quote(out.0.pricePerGram, now))
    ensures outerFailure || IsFresh(cache, now) ==> out.1 == cache
    ensures out.0.cached <==> outerFailure || IsFresh(cache, now)
  {
    if outerFailure then
      var price := if cache.Some? && cache.value.price != 0.0 then cache.value.price else DEFAULT_PRICE;
      var stamp := if cache.Some? then cache.value.timestamp else now;
      (Response(price, true, stamp, false, true), cache)
    else if IsFresh(cache, now) then
      (Response(cache.value.price, true, cache.value.timestamp, false, false), cache)
    else
      var primary := PrimaryTier(spot, exchange);
      var estimate := if Truthy(primary) then primary else Some(EstimateTier(random));
      var price := if Truthy(estimate) then estimate.value else DEFAULT_PRICE;
      (Response(price, false, now, true, false), Some(Quote(price, now)))
  }

  // ---------------------------------------------------------------------------
  // Properties of one request
  // ---------------------------------------------------------------------------

  /** A fresh entry is served as is and the cache is left unchanged. */
  lemma FreshCacheIsServed(cache: Option<Quote>, now: int, spot: Option<real>, exchange: ExchangeReply, random: real)
    requires 0.0 <= random < 1.0
    requires IsFresh(cache, now)
    ensures var (resp, after) := Respond(cache, now, spot, exchange, random, false);
      resp.cached && resp.pricePerGram == cache.value.price && resp.lastUpdated == cache.value.timestamp
      && after == cache
  {
  }

  /**
   * On a miss the converted spot price wins whenever it is non-zero: it is
   * served and cached, and the response still carries the estimate note.
   */
  lemma PrimaryTierWins(cache: Option<Quote>, now: int, spot: Option<real>, exchange: ExchangeReply, random: real)
    requires 0.0 <= random < 1.0
    requires !IsFresh(cache, now)
    requires Truthy(PrimaryTier(spot, exchange))
    ensures var (resp, after) := Respond(cache, now, spot, exchange, random, false);
      && resp.pricePerGram * TROY_OUNCE_GRAMS == spot.value * RateOf(exchange.idr)
      && !resp.cached
      && resp.estimated
      && after == Some(Quote(resp.pricePerGram, now))
  {
  }

  /**
   * When the spot price cannot be had (or converts to zero), the price is the
   * synthetic estimate: always within 1140000..1160000, so the fixed default
   * is never reached on a miss.
   */
  lemma EstimateWhenPrimaryFails(cache: Option<Quote>, now: int, spot: Option<real>, exchange: ExchangeReply, random: real)
    requires 0.0 <= random < 1.0
    requires !IsFresh(cache, now)
    requires !Truthy(PrimaryTier(spot, exchange))
    ensures var (resp, _) := Respond(cache, now, spot, exchange, random, false);
      && resp.pricePerGram == EstimateTier(random)
      && 1140000.0 <= resp.pricePerGram <= 1160000.0
      && resp.estimated && !resp.cached
  {
  }

  /** An escaping failure serves the cached price (or the default for none or zero) and writes nothing. */
  lemma FailureServesLastQuote(cache: Option<Quote>, now: int, spot: Option<real>, exchange: ExchangeReply, random: real)
    requires 0.0 <= random < 1.0
    ensures var (resp, after) := Respond(cache, now, spot, exchange, random, true);
      && after == cache && resp.cached && resp.error
      && resp.pricePerGram == (if cache.Some? && cache.value.price != 0.0 then cache.value.price else DEFAULT_PRICE)
  {
  }

  /**
   * The route never answers with a non-positive price as long as the spot
   * price and exchange rate it is given, and any cached price, are not negative.
   */
  lemma {:induction false} PriceIsPositive(cache: Option<Quote>, now: int, spot: Option<real>, exchange: ExchangeReply,
                                          random: real, outerFailure: bool)
    requires 0.0 <= random < 1.0
    requires spot.Some? ==> spot.value >= 0.0
    requires exchange.ExchangeOk? && exchange.idr.Some? ==> exchange.idr.value >= 0.0
    requires cache.Some? ==> cache.value.price > 0.0
    ensures Respond(cache, now, spot, exchange, random, outerFailure).0.pricePerGram > 0.0
  {
    if !outerFailure && !IsFresh(cache, now) {
      var primary := PrimaryTier(spot, exchange);
      if Truthy(primary) {
        assert primary.value * TROY_OUNCE_GRAMS >= 0.0;
        assert primary.value >= 0.0;
      }
    } else if !outerFailure {
      assert cache.Some?;
    }
  }

  /**
   * Two requests: a miss at `t0` caches its price, and every request within
   * the next five minutes is served that same price from the cache.
   */
  lemma {:induction false} MissThenHit(cache: Option<Quote>, t0: int, t1: int,
                                      spot0: Option<real>, exchange0: ExchangeReply, random0: real,
                                      spot1: Option<real>, exchange1: ExchangeReply, random1: real)
    requires 0.0 <= random0 < 1.0 && 0.0 <= random1 < 1.0
    requires !IsFresh(cache, t0)
    requires t0 <= t1 < t0 + CACHE_DURATION
    ensures var (first, after) := Respond(cache, t0, spot0, exchange0, random0, false);
      var (second, final) := Respond(after, t1, spot1, exchange1, random1, false);
      && !first.cached && second.cached
      && second.pricePerGram == first.pricePerGram
      && final == after
  {
    var (first, after) := Respond(cache, t0, spot0, exchange0, random0, false);
    assert after == Some(Quote(first.pricePerGram, t0));
    assert IsFresh(after, t1);
  }

  // ---------------------------------------------------------------------------
  // The handler over the module-level cache
  // ---------------------------------------------------------------------------

  class GoldPriceCache {
    var cachedGoldPrice: Option<Quote>

    constructor ()
      ensures cachedGoldPrice == None
    {
      cachedGoldPrice := None;
    }

    /** GET: serve the cache, or fall through the tiers and refresh it. */
    method Get(now: int, spot: Option<real>, exchange: ExchangeReply, random: real, outerFailure: bool)
      returns (resp: Response)
      requires 0.0 <= random < 1.0
      modifies this
      ensures (resp, cachedGoldPrice) == Respond(old(cachedGoldPrice), now, spot, exchange, random, outerFailure)
    {
      if outerFailure {
        var fallbackPrice := if cachedGoldPrice.Some? && cachedGoldPrice.value.price != 0.0
          then cachedGoldPrice.value.price else DEFAULT_PRICE;
        var stamp := if cachedGoldPrice.Some? then cachedGoldPrice.value.timestamp else now;
        return Response(fallbackPrice, true, stamp, false, true);
      }
      if cachedGoldPrice.Some? && now - cachedGoldPrice.value.timestamp < CACHE_DURATION {
        return Response(cachedGoldPrice.value.price, true, cachedGoldPrice.value.timestamp, false, false);
      }

      var goldPricePerGram: Option<real> := None;
      if spot.Some? && exchange.ExchangeOk? {
        var usdToIdr := if Truthy(exchange.idr) then exchange.idr.value else FALLBACK_RATE;
        goldPricePerGram := Some(PerGram(spot.value, usdToIdr));
      }
      assert goldPricePerGram == PrimaryTier(spot, exchange);
      if !Truthy(goldPricePerGram) {
        var variation := (random - 0.5) * 20000.0;
        goldPricePerGram := Some(Round(BASE_PRICE + variation) as real);
        assert goldPricePerGram.value == EstimateTier(random);
      }
      if !Truthy(goldPricePerGram) {
        goldPricePerGram := Some(DEFAULT_PRICE);
      }

      cachedGoldPrice := Some(Quote(goldPricePerGram.value, now));
      return Response(goldPricePerGram.value, false, now, true, false);
    }
  }
}
