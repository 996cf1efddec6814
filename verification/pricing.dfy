/** The pricing rule of `src/lib/pricing.ts`. Prices are whole AED. */
module Pricing {
  import opened Wrappers
  import opened Stamp

  const BasePrice: int := 149
  const LogoPrice: int := 49

  datatype PriceBreakdown = PriceBreakdown(basePrice: int, logoPrice: int, totalPrice: int)

  /** `calculatePrice`: the base price always, the logo surcharge exactly when
      `hasLogo` is present and true; a missing `hasLogo` counts as false. */
  function CalculatePrice(config: PartialConfig): (r: PriceBreakdown)
    ensures r.basePrice == 149
    ensures r.logoPrice == (if config.hasLogo == Some(true) then 49 else 0)
    ensures r.totalPrice == r.basePrice + r.logoPrice
    ensures r.totalPrice == 149 || r.totalPrice == 198
  {
    var logo := if config.hasLogo.GetOr(false) then LogoPrice else 0;
    PriceBreakdown(BasePrice, logo, BasePrice + logo)
  }

  /** Two configurations that agree on `hasLogo` (a missing key and `false`
      agree) are priced identically, whatever their other fields. */
  lemma PriceDependsOnlyOnLogo(a: PartialConfig, b: PartialConfig)
    requires a.hasLogo.GetOr(false) == b.hasLogo.GetOr(false)
    ensures CalculatePrice(a) == CalculatePrice(b)
  {
  }

  /** The total of a logo-free configuration is 149, of one with a logo 198. */
  lemma TotalByLogo(config: PartialConfig)
    ensures CalculatePrice(config).totalPrice == 149 <==> config.hasLogo != Some(true)
    ensures CalculatePrice(config).totalPrice == 198 <==> config.hasLogo == Some(true)
  {
  }
}
