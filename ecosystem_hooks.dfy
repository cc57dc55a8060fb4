/** The estimate arithmetic of the ecosystem hooks (src/Generic/hooks/stellar-ecosystem.ts):
    the fetched XLM price, the conversion of XLM amounts, and the fiat and asset estimates
    built from it and from the best bid of an order book. Amounts and prices are exact reals. */
module EcosystemHooks {
  import opened StellarTypes

  /** One bid of an order book; the book lists the best bid first. */
  datatype Offer = Offer(price: real, amount: real)

  /** What `useFiatEstimate` and `useAssetEstimate` return: a displayed price and the
      `convertAmount` closure. */
  datatype Estimate = Estimate(estimatedPrice: real, convertAmount: real -> real)

  /** The `xlmPrice` state of `usePriceConversion`: 0 until the first fetch answers,
      then overwritten by each fetch (the first one and every 60-second refresh). */
  class PriceConversion {
    var xlmPrice: real

    constructor ()
      ensures xlmPrice == 0.0
      ensures forall amount :: ConvertXlm(xlmPrice, amount) == 0.0
    {
      xlmPrice := 0.0;
    }

    /** A fetched price replaces the previous one; nothing is merged. */
    method PriceFetched(price: real)
      modifies this
      ensures xlmPrice == price
    {
      xlmPrice := price;
    }
  }

  /** `convertXLM`: an amount of XLM in the chosen currency. */
  function ConvertXlm(xlmPrice: real, amount: real): (r: real)
    ensures r == 0.0 <==> xlmPrice == 0.0 || amount == 0.0
    ensures xlmPrice > 0.0 ==> (r > 0.0 <==> amount > 0.0)
  {
    xlmPrice * amount
  }

  /** Before the first price arrives every conversion is 0, and conversion is linear. */
  lemma ConvertXlmProperties(xlmPrice: real, a: real, b: real)
    ensures ConvertXlm(0.0, a) == 0.0
    ensures ConvertXlm(xlmPrice, a + b) == ConvertXlm(xlmPrice, a) + ConvertXlm(xlmPrice, b)
    ensures ConvertXlm(xlmPrice, 1.0) == xlmPrice
  {
  }

  /** The price of the first bid, or 0 for an empty book. */
  function BestPrice(bids: seq<Offer>): (p: real)
    ensures |bids| == 0 ==> p == 0.0
    ensures |bids| > 0 ==> p == bids[0].price
  {
    if |bids| > 0 then bids[0].price else 0.0
  }

  /** The XLM value of `amount` units sold at `bestPrice` XLM each. */
  function XlmValue(bestPrice: real, amount: real): real {
    bestPrice * amount
  }

  /** `useFiatEstimate`: the native asset is priced at `xlmPrice`; any other asset at its
      best bid in XLM, converted on through `xlmPrice`. */
  function FiatEstimate(asset: Asset, xlmPrice: real, bids: seq<Offer>): (e: Estimate)
    ensures asset.Native? ==> e.estimatedPrice == xlmPrice
    ensures asset.Native? ==> forall a :: e.convertAmount(a) == ConvertXlm(xlmPrice, a)
    ensures !asset.Native? ==> e.estimatedPrice == BestPrice(bids)
    ensures !asset.Native? ==> forall a :: e.convertAmount(a) == ConvertXlm(xlmPrice, BestPrice(bids) * a)
  {
    if asset.Native? then Estimate(xlmPrice, a => ConvertXlm(xlmPrice, a))
    else
      var bestPrice := BestPrice(bids);
      Estimate(bestPrice, a => ConvertXlm(xlmPrice, XlmValue(bestPrice, a)))
  }

  /** The guarded inverse price: `1 / xlmPrice` when the price is positive, 0 otherwise. */
  function AssetPrice(xlmPrice: real): (p: real)
    ensures xlmPrice > 0.0 ==> p * xlmPrice == 1.0 && p > 0.0
    ensures xlmPrice <= 0.0 ==> p == 0.0
  {
    if xlmPrice > 0.0 then 1.0 / xlmPrice else 0.0
  }

  /** `useAssetEstimate`: currency to native XLM through the inverse price; to any other
      asset further through the best bid of the (XLM, asset) book. */
  function AssetEstimate(asset: Asset, xlmPrice: real, bids: seq<Offer>): (e: Estimate)
    ensures asset.Native? ==> e.estimatedPrice == AssetPrice(xlmPrice)
    ensures asset.Native? ==> forall a :: e.convertAmount(a) == AssetPrice(xlmPrice) * a
    ensures !asset.Native? ==> e.estimatedPrice == AssetPrice(xlmPrice) * BestPrice(bids)
    ensures !asset.Native? ==> forall a :: e.convertAmount(a) == AssetPrice(xlmPrice) * BestPrice(bids) * a
  {
    var assetPrice := AssetPrice(xlmPrice);
    if asset.Native? then Estimate(assetPrice, a => assetPrice * a)
    else
      var bestPrice := BestPrice(bids);
      Estimate(assetPrice * bestPrice, a => assetPrice * bestPrice * a)
  }

  /** An empty order book prices a non-native asset at 0 in both directions, never failing. */
  lemma EmptyBookEstimatesZero(asset: Asset, xlmPrice: real, amount: real)
    requires !asset.Native?
    ensures FiatEstimate(asset, xlmPrice, []).estimatedPrice == 0.0
    ensures FiatEstimate(asset, xlmPrice, []).convertAmount(amount) == 0.0
    ensures AssetEstimate(asset, xlmPrice, []).estimatedPrice == 0.0
    ensures AssetEstimate(asset, xlmPrice, []).convertAmount(amount) == 0.0
  {
  }

  /** At price 0 (before the first fetch, or a zero quote) every conversion is 0. */
  lemma NoPriceEstimatesZero(asset: Asset, xlmPrice: real, bids: seq<Offer>, amount: real)
    requires xlmPrice == 0.0
    ensures FiatEstimate(asset, xlmPrice, bids).convertAmount(amount) == 0.0
    ensures AssetEstimate(asset, xlmPrice, bids).estimatedPrice == 0.0
    ensures AssetEstimate(asset, xlmPrice, bids).convertAmount(amount) == 0.0
  {
  }

  /** With a stable positive price, XLM to currency and back, and currency to XLM and back,
      give the original amount exactly. */
  lemma NativeRoundTrip(xlmPrice: real, fiatBids: seq<Offer>, assetBids: seq<Offer>, amount: real)
    requires xlmPrice > 0.0
    ensures AssetEstimate(Native, xlmPrice, assetBids).convertAmount(FiatEstimate(Native, xlmPrice, fiatBids).convertAmount(amount)) == amount
    ensures FiatEstimate(Native, xlmPrice, fiatBids).convertAmount(AssetEstimate(Native, xlmPrice, assetBids).convertAmount(amount)) == amount
  {
    var p := AssetPrice(xlmPrice);
    assert p * (xlmPrice * amount) == (p * xlmPrice) * amount;
    assert xlmPrice * (p * amount) == (p * xlmPrice) * amount;
  }
}
