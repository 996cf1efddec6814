/** The stamp configuration types of `src/types/stamp.ts`. */
module Stamp {
  import opened Wrappers

  datatype Shape = Round | Rectangle | Square | Oval
  datatype Color = Black | Blue | Red | Green

  /** An uploaded trade-license document as the browser holds it (a `File`);
      only its identity matters to the model. */
  type FileHandle = string

  /** A complete stamp configuration. Optional properties of the interface are
      `Option`s; `tradeLicense` is `File | null`. */
  datatype StampConfig = StampConfig(
    shape: Shape,
    color: Color,
    companyName: string,
    companyNameAr: Option<string>,
    licenseNumber: Option<string>,
    emirate: string,
    poBox: Option<string>,
    hasLogo: bool,
    hasLicenseNumber: bool,
    customerName: Option<string>,
    customerEmail: Option<string>,
    customerPhone: Option<string>,
    tradeLicense: Option<FileHandle>,
    tradeLicenseUrl: Option<string>
  )

  /** `Partial<StampConfig>`: every key may be missing. For a required
      property the outer `None` is a missing key; for an optional property
      `Some(None)` is a key present with the value `undefined`. */
  datatype PartialConfig = PartialConfig(
    shape: Option<Shape>,
    color: Option<Color>,
    companyName: Option<string>,
    companyNameAr: Option<Option<string>>,
    licenseNumber: Option<Option<string>>,
    emirate: Option<string>,
    poBox: Option<Option<string>>,
    hasLogo: Option<bool>,
    hasLicenseNumber: Option<bool>,
    customerName: Option<Option<string>>,
    customerEmail: Option<Option<string>>,
    customerPhone: Option<Option<string>>,
    tradeLicense: Option<Option<FileHandle>>,
    tradeLicenseUrl: Option<Option<string>>
  )

  /** The partial configuration with no keys at all (`{}`). */
  const NoOverrides := PartialConfig(None, None, None, None, None, None, None,
                                     None, None, None, None, None, None, None)

  /** A complete configuration seen as a partial one: every key present. */
  function AsPartial(c: StampConfig): (p: PartialConfig)
    ensures p.hasLogo == Some(c.hasLogo)
  {
    PartialConfig(Some(c.shape), Some(c.color), Some(c.companyName),
                  Some(c.companyNameAr), Some(c.licenseNumber), Some(c.emirate),
                  Some(c.poBox), Some(c.hasLogo), Some(c.hasLicenseNumber),
                  Some(c.customerName), Some(c.customerEmail), Some(c.customerPhone),
                  Some(c.tradeLicense), Some(c.tradeLicenseUrl))
  }
}
