/** The configurator hook `useStampConfig` of
    `src/features/configurator/hooks/use-stamp-config.ts`: a default
    configuration overridden by the caller's partial one, and its price. */
module StampConfigHook {
  import opened Wrappers
  import opened Stamp
  import Pricing

  /** The configuration the hook starts from before overrides. */
  const Defaults := StampConfig(
    Round, Blue, "", Some(""), Some(""), "Dubai", Some(""), false, true,
    Some(""), Some(""), Some(""), None, None)

  /** Object spread `{...base, ...over}`: a key present in `over` wins. */
  function Override<T>(base: T, over: Option<T>): T {
    match over
    case Some(v) => v
    case None => base
  }

  /** `{ ...defaults, ...initialConfig }`. */
  function Merge(base: StampConfig, over: PartialConfig): (c: StampConfig)
    ensures over.shape.Some? ==> c.shape == over.shape.value
    ensures over.shape.None? ==> c.shape == base.shape
    ensures over.color.Some? ==> c.color == over.color.value
    ensures over.color.None? ==> c.color == base.color
    ensures over.companyName.Some? ==> c.companyName == over.companyName.value
    ensures over.companyName.None? ==> c.companyName == base.companyName
    ensures over.companyNameAr.Some? ==> c.companyNameAr == over.companyNameAr.value
    ensures over.companyNameAr.None? ==> c.companyNameAr == base.companyNameAr
    ensures over.licenseNumber.Some? ==> c.licenseNumber == over.licenseNumber.value
    ensures over.licenseNumber.None? ==> c.licenseNumber == base.licenseNumber
    ensures over.emirate.Some? ==> c.emirate == over.emirate.value
    ensures over.emirate.None? ==> c.emirate == base.emirate
    ensures over.poBox.Some? ==> c.poBox == over.poBox.value
    ensures over.poBox.None? ==> c.poBox == base.poBox
    ensures over.hasLogo.Some? ==> c.hasLogo == over.hasLogo.value
    ensures over.hasLogo.None? ==> c.hasLogo == base.hasLogo
    ensures over.hasLicenseNumber.Some? ==> c.hasLicenseNumber == over.hasLicenseNumber.value
    ensures over.hasLicenseNumber.None? ==> c.hasLicenseNumber == base.hasLicenseNumber
    ensures over.customerName.Some? ==> c.customerName == over.customerName.value
    ensures over.customerName.None? ==> c.customerName == base.customerName
    ensures over.customerEmail.Some? ==> c.customerEmail == over.customerEmail.value
    ensures over.customerEmail.None? ==> c.customerEmail == base.customerEmail
    ensures over.customerPhone.Some? ==> c.customerPhone == over.customerPhone.value
    ensures over.customerPhone.None? ==> c.customerPhone == base.customerPhone
    ensures over.tradeLicense.Some? ==> c.tradeLicense == over.tradeLicense.value
    ensures over.tradeLicense.None? ==> c.tradeLicense == base.tradeLicense
    ensures over.tradeLicenseUrl.Some? ==> c.tradeLicenseUrl == over.tradeLicenseUrl.value
    ensures over.tradeLicenseUrl.None? ==> c.tradeLicenseUrl == base.tradeLicenseUrl
  {
    StampConfig(
      Override(base.shape, over.shape),
      Override(base.color, over.color),
      Override(base.companyName, over.companyName),
      Override(base.companyNameAr, over.companyNameAr),
      Override(base.licenseNumber, over.licenseNumber),
      Override(base.emirate, over.emirate),
      Override(base.poBox, over.poBox),
      Override(base.hasLogo, over.hasLogo),
      Override(base.hasLicenseNumber, over.hasLicenseNumber),
      Override(base.customerName, over.customerName),
      Override(base.customerEmail, over.customerEmail),
      Override(base.customerPhone, over.customerPhone),
      Override(base.tradeLicense, over.tradeLicense),
      Override(base.tradeLicenseUrl, over.tradeLicenseUrl))
  }

  /** What the hook hands to the configurator: the state and its prices. */
  datatype HookState = HookState(config: StampConfig, basePrice: int, logoPrice: int, totalPrice: int)

  /** `useStampConfig(initialConfig)` on first render. A missing
      `initialConfig` is `NoOverrides`. */
  function UseStampConfig(initialConfig: PartialConfig): (h: HookState)
    ensures h.config == Merge(Defaults, initialConfig)
    ensures h.basePrice == Pricing.BasePrice
    ensures h.logoPrice == (if h.config.hasLogo then Pricing.LogoPrice else 0)
    ensures h.totalPrice == h.basePrice + h.logoPrice
    ensures initialConfig.hasLogo.None? ==> h.totalPrice == 149
  {
    var config := Merge(Defaults, initialConfig);
    var price := Pricing.CalculatePrice(AsPartial(config));
    HookState(config, price.basePrice, price.logoPrice, price.totalPrice)
  }

  /** With no overrides the hook starts from a blue round stamp for Dubai,
      without logo, showing the license number, with no trade license, at 149. */
  lemma DefaultHookState()
    ensures var h := UseStampConfig(NoOverrides);
      && h.config.shape == Round && h.config.color == Blue
      && h.config.emirate == "Dubai" && !h.config.hasLogo
      && h.config.hasLicenseNumber && h.config.tradeLicense.None?
      && h.totalPrice == 149
  {
  }

  /** Every later render, after `setConfig` replaced the whole state with a
      complete configuration `c`, holds `c`: merging a complete
      configuration over any base gives that configuration back. */
  lemma FullConfigIsKept(base: StampConfig, c: StampConfig)
    ensures Merge(base, AsPartial(c)) == c
    ensures UseStampConfig(AsPartial(c)).config == c
  {
  }

  /** The hook's prices are exactly those `calculatePrice` gives its state. */
  lemma HookPricesAgree(initialConfig: PartialConfig)
    ensures var h := UseStampConfig(initialConfig);
      var p := Pricing.CalculatePrice(AsPartial(h.config));
      h.basePrice == p.basePrice && h.logoPrice == p.logoPrice && h.totalPrice == p.totalPrice
  {
  }
}
