/** Conversion of a token price to BNB, the common unit of the APY computation. */
module PriceConversion {
  import opened Options
  import opened Decimal

  const BNB: string := "BNB"
  const BUSD: string := "BUSD"

  /** The price of `tokenName` in BNB. BNB is its own unit; a price quoted in BUSD is
      divided by the BNB price in USD; any other price is taken to be in BNB already. */
  function PriceToBnb(tokenName: string, tokenPrice: Value, quoteToken: Option<string>, bnbPriceUsd: Value): (r: Value)
    ensures tokenName == BNB ==> r == Some(1.0)
    ensures tokenName != BNB && quoteToken != Some(BUSD) ==> r == tokenPrice
    ensures tokenName != BNB && r.Some? ==> tokenPrice.Some?
    ensures tokenName != BNB && quoteToken == Some(BUSD) && tokenPrice.Some? ==>
              (r.Some? <==> bnbPriceUsd.Some? && bnbPriceUsd.value != 0.0)
    ensures tokenName != BNB && quoteToken == Some(BUSD) && r.Some? ==>
              r.value * bnbPriceUsd.value == tokenPrice.value
  {
    if tokenName == BNB then Some(1.0)
    else if tokenPrice.Some? && quoteToken == Some(BUSD) then Div(tokenPrice, bnbPriceUsd)
    else tokenPrice
  }

  /** Converting a BUSD price to BNB and multiplying back by the BNB price in USD returns
      the BUSD price. */
  lemma BusdRoundTrip(tokenName: string, price: real, bnbPriceUsd: real)
    requires tokenName != BNB && bnbPriceUsd != 0.0
    ensures Mul(Some(bnbPriceUsd), PriceToBnb(tokenName, Some(price), Some(BUSD), Some(bnbPriceUsd))) == Some(price)
  {
  }
}
