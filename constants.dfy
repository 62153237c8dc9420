/** The numeric constants soxs/constants.py gives the core. That file is not
    part of this model: it computes them from astropy's physical constants,
    and they appear here as the decimals it yields. */
module Constants {
  /** One keV in erg (erg_per_keV). */
  const ERG_PER_KEV: real := 1.6021766208e-9
  /** h*c in keV*Angstrom (hc). */
  const HC: real := 12.398419843320026
  /** FWHM of a Gaussian over its standard deviation, 2*sqrt(2*ln 2)
      (sigma_to_fwhm). */
  const SIGMA_TO_FWHM: real := 2.3548200450309493
  /** sqrt(2*pi) (sqrt2pi). */
  const SQRT2PI: real := 2.5066282746310002
}
