/*
 * Rate resolution of the exchange-rate bot: the fixed asset table, the
 * direct crypto-to-KZT quote and the USD cross-rate fallback
 * (get_crypto_rate, get_usdt_kzt_rate in usdtbot.py).
 *
 * Every HTTP exchange is an input value of type Response; what the code
 * does with it (which legs it requests, what it returns) is a pure
 * function of the symbol and those inputs.
 */
module Rates {

  datatype Option<T> = None | Some(value: T)

  /** The closed set of quoted assets. */
  datatype Asset = USDT | BTC | ETH | TON

  /** The ticker used as key of the provider table and in every reply. */
  function Symbol(a: Asset): (s: string)
  {
    match a
    case USDT => "USDT"
    case BTC => "BTC"
    case ETH => "ETH"
    case TON => "TON"
  }

  /**
   * The provider's identifier for each asset (the crypto_ids table).  The
   * requests themselves are inputs, so this only documents the table, whose
   * injectivity TablesInjective states.
   */
  function ProviderId(a: Asset): (id: string)
  {
    match a
    case USDT => "tether"
    case BTC => "bitcoin"
    case ETH => "ethereum"
    case TON => "the-open-network"
  }

  /** Membership test and lookup in the symbol table. */
  function AssetOf(symbol: string): (r: Option<Asset>)
    ensures r.Some? ==> Symbol(r.value) == symbol
    ensures r.None? ==> forall a :: Symbol(a) != symbol
  {
    if symbol == "USDT" then Some(USDT)
    else if symbol == "BTC" then Some(BTC)
    else if symbol == "ETH" then Some(ETH)
    else if symbol == "TON" then Some(TON)
    else None
  }

  /** The table is injective: distinct assets have distinct tickers and provider ids. */
  lemma TablesInjective(a: Asset, b: Asset)
    ensures Symbol(a) == Symbol(b) ==> a == b
    ensures ProviderId(a) == ProviderId(b) ==> a == b
    ensures AssetOf(Symbol(a)) == Some(a)
  {
  }

  /**
   * What looking up the expected field of a decoded JSON body and passing
   * it to float() gives:
   *   Missing    - the provider key or the sub-field is absent (KeyError),
   *   Number(v)  - float() succeeds with v,
   *   NotNumeric - float() rejects a string (ValueError),
   *   WrongType  - the lookup or float() raises an exception outside the
   *                three caught classes: TypeError for a null, list or
   *                object value (or container), OverflowError for an
   *                integer too large for a float.
   */
  datatype Field = Missing | Number(value: real) | NotNumeric | WrongType

  /** One HTTP exchange as seen by the resolver. */
  datatype Response =
    | TransportError      // timeout or connection failure
    | HttpError           // a status that raise_for_status rejects
    | Undecodable         // response.json() fails
    | Decoded(field: Field)

  /** The three requests the resolver may issue, in the order it may issue them. */
  datatype Leg = Primary | UsdLeg | FxLeg

  /** Rate found (or None) together with the legs that were requested, in order. */
  datatype Resolution = Resolution(rate: Option<real>, consulted: seq<Leg>)

  /** The network answers for one asset: direct quote, USD quote, USD-to-KZT rate. */
  datatype Exchange = Exchange(primary: Response, usdLeg: Response, fxLeg: Response)

  /** The number a leg yields, or None for every failure of that leg. */
  function Value(resp: Response): (v: Option<real>)
    ensures v.Some? <==> resp.Decoded? && resp.field.Number?
    ensures v.Some? ==> v.value == resp.field.value
  {
    match resp
    case Decoded(Number(x)) => Some(x)
    case _ => None
  }

  /** Python truthiness of a resolved rate: neither None nor zero. */
  predicate Truthy(r: Option<real>)
  {
    r.Some? && r.value != 0.0
  }

  /**
   * The cross-rate fallback: the asset's USD price, then USD-to-KZT from
   * an independent source, then their product.  The FX leg is requested
   * only after a usable USD leg, and a product is returned only when
   * both legs gave a number.
   */
  function Fallback(usdLeg: Response, fxLeg: Response): (r: Resolution)
    ensures |r.consulted| >= 1 && r.consulted[0] == UsdLeg
    // each leg is asked at most once: no retry of the same request
    ensures |r.consulted| == (if Value(usdLeg).Some? then 2 else 1)
    ensures FxLeg in r.consulted <==> Value(usdLeg).Some?
    ensures r.rate.Some? <==> Value(usdLeg).Some? && Value(fxLeg).Some?
    ensures r.rate.Some? ==> r.rate.value == Value(usdLeg).value * Value(fxLeg).value
  {
    match Value(usdLeg)
    case None => Resolution(None, [UsdLeg])
    case Some(usd) =>
      match Value(fxLeg)
      case None => Resolution(None, [UsdLeg, FxLeg])
      case Some(kzt) => Resolution(Some(usd * kzt), [UsdLeg, FxLeg])
  }

  /**
   * get_crypto_rate with every failure of the primary leg sending control
   * to the fallback (see WrongType and ResolveAsWritten for the one kind
   * of failure the code as written lets escape instead).
   */
  function Resolve(symbol: string, primary: Response, usdLeg: Response, fxLeg: Response): (r: Resolution)
    // an unknown symbol is refused before any request
    ensures AssetOf(symbol).None? ==> r.rate.None? && r.consulted == []
    // a known symbol always asks the primary source first
    ensures AssetOf(symbol).Some? ==> |r.consulted| >= 1 && r.consulted[0] == Primary
    // each leg is asked at most once: one fallback step, no retry loop
    ensures |r.consulted| ==
              if AssetOf(symbol).None? then 0
              else if Value(primary).Some? then 1
              else if Value(usdLeg).Some? then 3
              else 2
    // a usable primary quote is final: returned as is, fallback untouched
    ensures AssetOf(symbol).Some? && Value(primary).Some? ==>
              r.rate == Value(primary) && r.consulted == [Primary]
    // any primary failure goes to the fallback, whose result and requests follow it
    ensures AssetOf(symbol).Some? && Value(primary).None? ==>
              r.rate == Fallback(usdLeg, fxLeg).rate &&
              r.consulted == [Primary] + Fallback(usdLeg, fxLeg).consulted
    ensures AssetOf(symbol).Some? && Value(primary).None? ==>
              |r.consulted| >= 2 && r.consulted[1] == UsdLeg
    ensures AssetOf(symbol).Some? && Value(primary).None? ==>
              (r.rate.Some? <==> Value(usdLeg).Some? && Value(fxLeg).Some?)
    // the FX leg is requested only after a usable USD leg
    ensures FxLeg in r.consulted ==> UsdLeg in r.consulted && Value(usdLeg).Some?
    // a fallback answer is always the full product, never one leg alone
    ensures r.rate.Some? && UsdLeg in r.consulted ==>
              Value(usdLeg).Some? && Value(fxLeg).Some? &&
              r.rate.value == Value(usdLeg).value * Value(fxLeg).value &&
              r.consulted == [Primary, UsdLeg, FxLeg]
  {
    match AssetOf(symbol)
    case None => Resolution(None, [])
    case Some(_) =>
      if Value(primary).Some? then Resolution(Value(primary), [Primary])
      else
        var f := Fallback(usdLeg, fxLeg);
        Resolution(f.rate, [Primary] + f.consulted)
  }

  /** get_usdt_kzt_rate: the USDT rate; USDT is in the table, so the primary source is always asked. */
  function UsdtKztRate(ex: Exchange): (r: Resolution)
    ensures |r.consulted| >= 1 && r.consulted[0] == Primary
    ensures Value(ex.primary).Some? ==> r.rate == Value(ex.primary) && r.consulted == [Primary]
    ensures Value(ex.primary).None? ==>
              r.rate == Fallback(ex.usdLeg, ex.fxLeg).rate &&
              r.consulted == [Primary] + Fallback(ex.usdLeg, ex.fxLeg).consulted
  {
    Resolve(Symbol(USDT), ex.primary, ex.usdLeg, ex.fxLeg)
  }

  /** A primary quote of zero is returned unchanged and the fallback is not tried. */
  lemma ZeroPrimaryIsFinal(a: Asset, usdLeg: Response, fxLeg: Response)
    ensures Resolve(Symbol(a), Decoded(Number(0.0)), usdLeg, fxLeg) == Resolution(Some(0.0), [Primary])
    ensures !Truthy(Resolve(Symbol(a), Decoded(Number(0.0)), usdLeg, fxLeg).rate)
  {
  }

  /** Two concrete scenarios: a direct quote, and a fallback after an empty primary body. */
  lemma TetherScenarios()
    ensures Resolve("USDT", Decoded(Number(450.5)), TransportError, TransportError).rate == Some(450.5)
    ensures Resolve("USDT", Decoded(Missing), Decoded(Number(1.0)), Decoded(Number(449.0))).rate == Some(449.0)
  {
  }

  // ---------------------------------------------------------------------
  // The code as written: TypeError (and OverflowError) are not among the
  // caught exceptions.
  // ---------------------------------------------------------------------

  /** Either the function returned a resolution, or an exception escaped after the listed requests. */
  datatype Call = Returned(res: Resolution) | Raised(consulted: seq<Leg>)

  /** A leg whose handling raises an exception that neither except clause catches. */
  predicate Escapes(resp: Response)
  {
    resp.Decoded? && resp.field.WrongType?
  }

  /**
   * get_crypto_rate exactly as written: an uncaught exception (WrongType)
   * from the primary leg skips the fallback and leaves the function, and
   * one from a fallback leg leaves it instead of giving None.
   */
  function ResolveAsWritten(symbol: string, primary: Response, usdLeg: Response, fxLeg: Response): (c: Call)
    ensures c.Raised? <==>
              AssetOf(symbol).Some? &&
              (Escapes(primary) ||
               (Value(primary).None? && Escapes(usdLeg)) ||
               (Value(primary).None? && Value(usdLeg).Some? && Escapes(fxLeg)))
    ensures c.Returned? ==> c.res == Resolve(symbol, primary, usdLeg, fxLeg)
    ensures c.Raised? ==> |c.consulted| >= 1 && c.consulted[0] == Primary
    // the exception leaves at the leg that raised it: an escaping primary skips the fallback
    ensures c.Raised? ==>
              c.consulted == [Primary] +
                (if Escapes(primary) then [] else if Escapes(usdLeg) then [UsdLeg] else [UsdLeg, FxLeg])
  {
    match AssetOf(symbol)
    case None => Returned(Resolution(None, []))
    case Some(_) =>
      if Escapes(primary) then Raised([Primary])
      else if Value(primary).Some? then Returned(Resolution(Value(primary), [Primary]))
      else if Escapes(usdLeg) then Raised([Primary, UsdLeg])
      else if Value(usdLeg).None? then Returned(Resolution(None, [Primary, UsdLeg]))
      else if Escapes(fxLeg) then Raised([Primary, UsdLeg, FxLeg])
      else if Value(fxLeg).None? then Returned(Resolution(None, [Primary, UsdLeg, FxLeg]))
      else Returned(Resolution(Some(Value(usdLeg).value * Value(fxLeg).value), [Primary, UsdLeg, FxLeg]))
  }

  /**
   * A null "kzt" field in an otherwise good primary body: as written the
   * call raises without trying the fallback; the fallback would have
   * produced 1.0 * 449.0.
   */
  lemma NullPrimaryFieldEscapes()
    ensures ResolveAsWritten("USDT", Decoded(WrongType), Decoded(Number(1.0)), Decoded(Number(449.0)))
              == Raised([Primary])
    ensures Resolve("USDT", Decoded(WrongType), Decoded(Number(1.0)), Decoded(Number(449.0)))
              == Resolution(Some(449.0), [Primary, UsdLeg, FxLeg])
  {
  }
}
