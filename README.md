# SOXS spectra core in Dafny

This project models the spectrum core of SOXS, the X-ray observation simulator (`soxs/spectra.py`), and proves properties of the model:

- **`Spectrum`** is a flux density on `nbins` energy bins, given by `nbins + 1` edges in keV. It caches the bin midpoints, the width `de` of the *first* bin (used for every bin), the total photon and energy fluxes, and the normalised cumulative distribution `cumspec` that energies are sampled from. It supports:
  - arithmetic (`+`, `*`, `/`);
  - band queries and band extraction;
  - in-place rescaling, foreground absorption and Gaussian emission or absorption lines, each of which refreshes the cached fields;
  - the `from_constant` and `from_powerlaw` grid builders and the edge arithmetic of the file round trip.
- **`ConvolvedSpectrum`** is the flux times an instrument's effective area. It can be deconvolved, and it refuses absorption. Its rate is in photon/(s keV), which the plain constructor cannot convert, so two of them cannot be added and one cannot be multiplied, divided or convolved again. In the model it is the same Dafny class `Spectrum`, with `kind == Convolved(area)`.
- **`_generate_energies`** is inverse-CDF sampling: sorted uniform draws are mapped through `np.interp` from `cumspec` onto the edges. The mean flux of the sample, as the two `generate_energies` callers compute it, is modelled too.
- **`wabs_cross_section`** is the Morrison & McCammon photoelectric cross-section, a quadratic over E³ on fourteen segments.
- **`ApecGenerator`**:
  - constructor validation (the NEI preconditions, `var_elem` parsing and sorting, the cosmic and metal groups, the abundance table);
  - `_make_spectrum`, which selects lines, bins them with `np.histogram`, and adds the continuum and pseudo-continuum of the first matching row by `np.interp`;
  - `_get_table`'s accumulation loops;
  - `_spectrum_init`'s temperature bracket;
  - `get_spectrum` and `get_nei_spectrum`.

Numbers are Dafny `real`. `exp`, `sqrt`, fractional powers, `broaden_lines` and the tbabs spline are function parameters. Where numpy produces an infinity or a NaN that the code relies on (`cumspec` of an all-zero spectrum, `deconvolve`'s `nan_to_num`, the sample flux of an empty sample), the model carries an explicit `Float` value `Finite(x) | PosInf | NegInf | NaN`.

Files:

| file | module | what it holds |
|---|---|---|
| `constants.dfy` | `Constants` | the numeric constants `erg_per_keV`, `hc`, `sigma_to_fwhm` and `sqrt2pi` |
| `numerics.dfy` | `Numerics` | sums, `np.cumsum`, `np.linspace`, `np.diff`, midpoints, `np.interp` (clamped; numpy's choice of segment), `np.searchsorted`, Python negative indices, `np.isclose`, float division and `np.nan_to_num` |
| `wrappers.dfy` | `Wrappers` | `Option`, `Result`, `Outcome` |
| `sampling.dfy` | `Sampling` | `_generate_energies` and the sample flux |
| `absorption.dfy` | `Absorption` | `wabs_cross_section`, `get_wabs_absorb` |
| `spectra.dfy` | `Spectra` | class `Spectrum` (both Python classes), its value-level specification functions and lemmas |
| `apec_config.dfy` | `ApecConfig` | `ApecGenerator.__init__` without its I/O |
| `apec.dfy` | `Apec` | `_make_spectrum`, `_get_table`, `_spectrum_init`, `get_spectrum`, `get_nei_spectrum` |

Two kinds of operation take different forms:

- **State-changing operations** are methods of the class `Spectrum`. `rescale_flux`, `apply_foreground_absorption`, `add_emission_line` and `add_absorption_line` reassign `flux` and then call `ComputeTotalFlux`, which refreshes the caches. The invariant `Valid()` says the caches agree with the flux.
- **Loops in `ApecGenerator`** are methods with loop invariants, each proved against a recursive specification function:
  - the `var_elem` append loop and the sort (`ParseVarElem`, `SortPairs`);
  - `_get_table` (`GetTable`, `TableColumn`, `AddGroup`);
  - the `spec +=` loops (`AddFreeTerms`).

Four behaviours of the code are easy to misread. The model follows the code in each:

- **Zero total flux.** `_compute_total_flux` (soxs/spectra.py:57-59) divides the cumulative sum by its last entry without checking it. For an all-zero spectrum this is 0/0, so every `cumspec` entry becomes NaN and nothing raises (`Spectra.CumSpecOfZeroSpectrum`).
- **Temperatures at and beyond the ends of the table.**
  - With a single temperature, `dTvals` is empty, so line 851 raises `IndexError` for every kT before the guard at line 888 is reached.
  - With at least two temperatures, `kT <= Tvals[0]` gives `tindex = -1`, and the guard at line 888 returns zeros.
  - With at least two temperatures, `kT == Tvals[-1]` is interpolated with `dT = 1`.
  - `kT > Tvals[-1]` raises `IndexError` at `dTvals[tindex]` (line 851) before the guard at line 888 is reached (`Apec.TemperatureBracket`).
- **A kT on an interior grid point `Tvals[k]`.** The left-sided `searchsorted` at line 850 gives `tindex = k - 1`. The point is therefore blended from rows k - 1 and k with `dT = 1`, not read from row k with `dT = 0`.
- **The zero result** at line 889 is a bare `np.zeros(nbins)`, not a `Spectrum` (`Apec.ApecOutput.ZeroArray`).

## Model

| member | source | states |
|---|---|---|
| Numerics.PrefixSums | soxs/spectra.py:56-57 | the cumulative sum with a 0 inserted in front has `n + 1` entries, and entry k is the sum of the first k terms |
| Numerics.PrefixSumsMonotone | soxs/spectra.py:56 | with non-negative terms, a longer prefix never sums to less |
| Numerics.CountBelowSplits | soxs/spectra.py:850 | `np.searchsorted` (left side) on a sorted array: every entry before the count is below x, every entry from it on is at least x |
| Numerics.CountAtMostSplits | soxs/spectra.py:769 | the right-sided count that places a value in a histogram bin: entries before it are at most x, the rest exceed x |
| Numerics.PyIndex | soxs/spectra.py:851 | a Python index in range reads position i, or n + i when i is negative |
| Numerics.LinspaceEnds | soxs/spectra.py:666 | `np.linspace` starts at `emin` and ends exactly at `emax` |
| Numerics.LinspaceIncreasing | soxs/spectra.py:666 | the edges of `np.linspace(emin, emax, nbins+1)` strictly increase when emin < emax |
| Numerics.UniformIsLinspace | soxs/spectra.py:265 | an evenly spaced grid equals the linspace of its two ends with the same number of points |
| Numerics.Diff | soxs/spectra.py:667 | `np.diff` has one entry fewer, and entry i is `s[i+1] - s[i]` |
| Numerics.InterpOnSegment | soxs/spectra.py:35 | strictly inside a segment, `np.interp` is the straight line through the segment's two points |
| Numerics.InterpRange | soxs/spectra.py:35 | with rising values, `np.interp` stays between the first and last value, clamping outside the knots |
| Numerics.InterpMonotone | soxs/spectra.py:35 | with non-decreasing knots and values, `np.interp` is non-decreasing in x |
| Numerics.InterpAtPoint | soxs/spectra.py:61 | at a knot of strictly increasing knots, `np.interp` returns that knot's value |
| Numerics.InterpNonNegative | soxs/spectra.py:786 | non-negative values interpolate to a non-negative value everywhere |
| Numerics.Divide | soxs/spectra.py:58 | float division: the quotient for a non-zero divisor; for a zero one, NaN for 0/0 and an infinity of the numerator's sign otherwise |
| Sampling.GenerateEnergies | soxs/spectra.py:33-35 | exactly one energy per draw, so `n_ph` energies |
| Sampling.GeneratedEnergiesSortedInGrid | soxs/spectra.py:33-35 | sorted draws give non-decreasing energies, each in `[ebins[0], ebins[-1]]` |
| Sampling.DrawOnCumulativeGivesEdge | soxs/spectra.py:35 | a draw equal to `cumspec[i]` (distinct cumulative values) gives exactly `ebins[i]` |
| Sampling.SampleFlux | soxs/spectra.py:514 | for positive exposure and area, the sample flux is `sum(E) * erg_per_keV / (t_exp * area)` |
| Sampling.ConvolvedSampleFlux | soxs/spectra.py:1044-1045 | for positive exposure and summed area, the sum of energies divided by the summed effective area at the drawn energies; NaN for an empty sample |
| Absorption.WabsSegment | soxs/spectra.py:950 | the clamped segment index lies in -1..13 |
| Absorption.WabsSet | soxs/spectra.py:950-951 | the coefficient set read, after Python's wrap-around of -1, lies in 0..13 |
| Absorption.WabsEdgesIncrease | soxs/spectra.py:942-943 | the segment edges strictly increase, as searchsorted needs |
| Absorption.WabsSetBrackets | soxs/spectra.py:950 | for 0 < E <= 8.331, set k is the one with `emax[k] < E <= emax[k+1]`; every E > 8.331 (10 keV and beyond) reads set 13; E <= 0 wraps to set 13 |
| Absorption.WabsSetMatchesBreakpoints | soxs/spectra.py:942-950 | the searchsorted choice equals an independent table of breakpoints, segment by segment |
| Absorption.WabsLastSegment | soxs/spectra.py:942-951 | above 8.331 keV, and for negative E, sigma is `(701.2 + 25.2 E) * 1e-24 / E^3` |
| Spectra.MidpointsInsideBins | soxs/spectra.py:47 | on rising edges each midpoint lies strictly inside its bin, and the midpoints rise |
| Spectra.EnergyWeighted | soxs/spectra.py:56 | bin i of the energy-weighted flux is `flux[i] * emid[i]` in erg |
| Spectra.CumSpecEntries | soxs/spectra.py:57-59 | entry k of `cumspec` is the float division of the flux below edge k by the total flux |
| Spectra.CumSpecIsDistribution | soxs/spectra.py:57-59 | with a non-zero total, `cumspec` is finite with `nbins + 1` entries, starts at 0, ends at 1, and entry k is the share of the total below edge k |
| Spectra.CumSpecNonDecreasing | soxs/spectra.py:57-59 | with non-negative flux, `de >= 0` and a non-zero total, `cumspec` is non-decreasing |
| Spectra.CumSpecOfZeroSpectrum | soxs/spectra.py:59 | a non-negative spectrum with zero total has every `cumspec` entry NaN (0/0); nothing fails |
| Spectra.TotalFluxAdds | soxs/spectra.py:55 | the total photon flux of a sum of spectra is the sum of the totals |
| Spectra.TotalEnergyFluxAdds | soxs/spectra.py:56 | the total energy flux of a sum of spectra is the sum of the totals |
| Spectra.EnergyWeightedAdds | soxs/spectra.py:56 | weighting by energy distributes over the sum of two fluxes |
| Spectra.BandMask | soxs/spectra.py:118 | keeps exactly the bins whose midpoint lies in the closed band `[emin, emax]` and zeroes the rest |
| Spectra.FullBandIsTotal | soxs/spectra.py:118-121 | a band that holds every midpoint has the total photon and energy fluxes |
| Spectra.EmptyBandIsZero | soxs/spectra.py:118-121 | a band that holds no midpoint has zero photon and energy flux |
| Spectra.BandExtremes | soxs/spectra.py:118-121 | the photon and energy flux of a band holding every midpoint are the totals, and of a band holding none are zero |
| Spectra.RescaleHitsPhotonTarget | soxs/spectra.py:347-352 | scaling every bin by `new_flux / f` makes the band's photon flux exactly `new_flux` when f != 0 |
| Spectra.RescaleHitsEnergyTarget | soxs/spectra.py:349-352 | scaling every bin by `new_flux / f` makes the band's energy flux exactly `new_flux` when f != 0 |
| Spectra.EdgeIndices | soxs/spectra.py:313-314 | the indices `np.where` returns are in range |
| Spectra.BandEdgeIndices | soxs/spectra.py:313-314 | the indices of the edges inside the band are valid edge indices |
| Spectra.EdgeIndicesAreRun | soxs/spectra.py:313-314 | on rising edges, the edges inside `[emin, emax]` are the consecutive run from the first edge >= emin to the last edge <= emax |
| Spectra.Gather | soxs/spectra.py:315-316 | fancy indexing: entry k is `s[idx[k]]` |
| Spectra.BandSpectrumIsRun | soxs/spectra.py:313-316 | the band's edges and flux are contiguous slices of the original edges and flux |
| Spectra.Broadcast | soxs/spectra.py:77 | a scalar, a length-1 array or a length-nbins array broadcasts to nbins values; any other length fails |
| Spectra.Quotient | soxs/spectra.py:82 | each quotient times its divisor gives back the flux |
| Spectra.CrossSections | soxs/spectra.py:411-415 | the cross-section of the chosen model at each redshifted midpoint |
| Spectra.Survival | soxs/spectra.py:416 | the surviving fraction `exp(-nH * 1e22 * sigma)` in every bin |
| Spectra.SurvivingFractionsMultiply | soxs/spectra.py:416 | absorbing by two columns in turn equals absorbing by their sum (for an exponential `exp`) |
| Spectra.AbsorptionColumnsAdd | soxs/spectra.py:416 | applying absorption twice to a flux equals one absorption by the summed column |
| Spectra.EmissionProfile | soxs/spectra.py:442-448 | the added line is a Gaussian of sigma `width / sigma_to_fwhm` and peak `amp / (sqrt(2 pi) sigma)` at every midpoint |
| Spectra.AbsorptionDepth | soxs/spectra.py:475-482 | the optical depth is `B` times the Gaussian shape at every midpoint |
| Spectra.Transmission | soxs/spectra.py:482 | the transmitted fraction in each bin is `exp(-tau)` |
| Spectra.AbsorptionLineDepthNonNegative | soxs/spectra.py:476-477 | `B = W * E0^2 / (hc * sqrt(2 pi) * sigma)` is non-negative for a positive width and non-negative equivalent width |
| Spectra.AbsorptionLineOnlyRemoves | soxs/spectra.py:475-482 | an absorption line never raises and never makes negative any non-negative bin |
| Spectra.DeconvolveUndoesConvolve | soxs/spectra.py:1016-1018 | deconvolving a convolved flux gives back the flux wherever the area is non-zero, and 0 where it is zero |
| Spectra.DeconvolveZeroAreaIsHuge | soxs/spectra.py:1018 | a positive rate over a zero area becomes the largest finite float, not 0 |
| Spectra.LinspaceGrid | soxs/spectra.py:234-235 | linspace edges have first width `(emax - emin) / nbins` and midpoints `emin + (i + 1/2)(emax - emin) / nbins` |
| Spectra.Constant | soxs/spectra.py:294 | `const_flux * np.ones(nbins)`: nbins copies of the constant |
| Spectra.ConstantSpectrumTotal | soxs/spectra.py:293-294 | a constant spectrum's total flux is `const_flux * (emax - emin)` |
| Spectra.PowerLawFlux | soxs/spectra.py:235-236 | bin i is `norm * (emid[i] (1 + z))^(-photon_index)` |
| Spectra.RedshiftScalesPowerLaw | soxs/spectra.py:236 | the redshifted power law is the unredshifted one times `(1 + z)^(-photon_index)` |
| Spectra.TextFileRebuildsUniformEdges | soxs/spectra.py:267-269 | rebuilding edges from the midpoints of an evenly spaced grid gives back the grid |
| Spectra.TextFileMovesUnevenEdges | soxs/spectra.py:267-269 | on an uneven grid the rebuilt edges differ: `[0, 1, 3]` comes back as `[-0.25, 1.25, 2.75]` |
| Spectra.H5FileRebuildsUniformEdges | soxs/spectra.py:262-265 | the HDF5 rebuild from emin, emax and the bin count gives back an evenly spaced grid |
| Spectra.EvaluateAtMidpoints | soxs/spectra.py:61 | the interpolating function returns each bin's flux at its midpoint |
| Spectra.Spectrum.constructor | soxs/spectra.py:46-52 | keeps the edges and flux, and the caches agree with them (`Valid`) |
| Spectra.Spectrum.Convolve | soxs/spectra.py:991-1009 | a convolved spectrum of a plain one, on the same edges with flux times area, caches valid |
| Spectra.Spectrum.ComputeTotalFlux | soxs/spectra.py:54-61 | refreshes the totals and `cumspec` from the flux, and leaves the flux alone |
| Spectra.Spectrum.Evaluate | soxs/spectra.py:91-96 | the flux at a midpoint is that bin's flux, clamped to the first and last bin outside the midpoints |
| Spectra.Spectrum.FluxInBand | soxs/spectra.py:98-121 | over a band holding every midpoint, the two totals; over one holding none, zeros |
| Spectra.Spectrum.Add | soxs/spectra.py:63-71 | fails with a binning error exactly when the bin counts differ or the edges are not close, then with a units error exactly when the units differ, then with a unit conversion error exactly when both are convolved; succeeds exactly when both are plain and the grids agree, giving a plain spectrum on this one's edges with the bin-wise sum |
| Spectra.Spectrum.Multiply | soxs/spectra.py:73-79 | an area gives a convolved spectrum of flux times area, and fails with a unit conversion error exactly when this one is convolved; a number or array gives a plain spectrum of the broadcast product, succeeding exactly when numpy can broadcast and this one is plain, and a broadcast failure comes before the unit error |
| Spectra.Spectrum.DivideBy | soxs/spectra.py:81-84 | a plain spectrum of the bin-wise quotient, succeeding exactly when numpy can broadcast and this one is plain, and a broadcast failure comes before the unit error |
| Spectra.Spectrum.NewSpecFromBand | soxs/spectra.py:297-317 | the edges inside `[emin, emax]` and the flux of all but the last of them; fails when fewer than two edges are inside |
| Spectra.Spectrum.RescaleFlux | soxs/spectra.py:319-353 | every bin is multiplied by `new_flux / f`; the band then carries `new_flux` of the chosen kind; an unknown flux type fails with the flux unchanged |
| Spectra.Spectrum.ApplyForegroundAbsorption | soxs/spectra.py:393-417 | the flux is multiplied by the surviving fraction at the absorber-frame energies; an unknown model fails; a convolved spectrum refuses |
| Spectra.Spectrum.AddEmissionLine | soxs/spectra.py:419-449 | adds the Gaussian profile and raises the total flux by the profile's total; non-Gaussian types are refused |
| Spectra.Spectrum.AddAbsorptionLine | soxs/spectra.py:451-483 | multiplies the flux by the line's transmission; non-Gaussian types are refused |
| Spectra.Spectrum.GenerateEnergies | soxs/spectra.py:485-516 | mean count `t_exp * area * total_flux`; one energy per draw, sorted and inside the grid; the sample flux |
| Spectra.Spectrum.GenerateConvolvedEnergies | soxs/spectra.py:1021-1047 | mean count `t_exp * total_flux`; sorted energies inside the grid; the flux over the summed sampled area |
| Spectra.Spectrum.Draw | soxs/spectra.py:30-40 | one energy per sorted draw, by interpolation from `cumspec` to the edges, sorted and inside the grid |
| Spectra.Spectrum.Deconvolve | soxs/spectra.py:1011-1019 | a plain spectrum on the same edges with the rate over the area, `nan_to_num` applied |
| Spectra.Spectrum.FromConstant | soxs/spectra.py:273-295 | linspace edges and a constant flux whose total is `const_flux * (emax - emin)`; no bins fails |
| Spectra.Spectrum.FromPowerlaw | soxs/spectra.py:209-237 | linspace edges and the power-law flux at their midpoints; no bins fails |
| ApecConfig.IndexOf | soxs/spectra.py:722 | `list.index`: the first position holding x, and none exactly when x is absent |
| ApecConfig.SplitCaretOfJoin | soxs/spectra.py:713-714 | splitting `name^rest` at the caret gives back the name and the rest |
| ApecConfig.ParseInt | soxs/spectra.py:715 | `int()` accepts exactly an optional sign followed by one or more digits |
| ApecConfig.FormatInt | soxs/spectra.py:726 | `"%d"` writes at least one character and never a caret |
| ApecConfig.ParseIntOfFormatInt | soxs/spectra.py:715 | `int()` reads back any integer `"%d"` writes |
| ApecConfig.ParseEntry | soxs/spectra.py:708-722 | a caret entry fails in CIE; a bare entry fails in NEI; an accepted entry names a listed element, with ion 0 in CIE |
| ApecConfig.IonNameParsesBack | soxs/spectra.py:726 | the recorded ion name `X^n` of a pair parses back to the same pair |
| ApecConfig.ParseVarElem | soxs/spectra.py:705-722 | succeeds exactly when every entry parses, with the entries' pairs in order; otherwise the error of the first entry that fails |
| ApecConfig.Insert | soxs/spectra.py:723 | inserting into a sorted list keeps it sorted and adds exactly that pair |
| ApecConfig.SortPairs | soxs/spectra.py:723 | the pairs sorted by (Z, ion), a permutation of the input |
| ApecConfig.WithoutFreed | soxs/spectra.py:729-736 | exactly the group's elements that no varied pair frees |
| ApecConfig.ChooseTable | soxs/spectra.py:737-745 | a user table must have 30 entries and gets a leading 0; a named table must exist and is copied |
| ApecConfig.RelativeTable | soxs/spectra.py:746-747 | entry 0 is kept, and every other entry times the solar abundance gives back the table's |
| ApecConfig.NewGenerator | soxs/spectra.py:645-747 | fails exactly when an NEI check, the duplicate check, an entry's parse, the conversion of the pairs to a C long array (line 724), the empty `var_elem` array or the table choice fails; the NEI errors come first, then duplicates, then the first failing entry's error, then the `OverflowError` of a number outside int64, then the empty array's `IndexError`; on success the pairs are sorted by (Z, ion), ion 0 in CIE; the groups hold exactly the non-varied elements (H, He only in NEI); and the table is the chosen one |
| ApecConfig.Assemble | soxs/spectra.py:660-747 | the grid, the names, the groups without the varied elements and the abundance tables; fails exactly when an empty `var_elem` is indexed by a non-empty group (`IndexError` at 730/734) or the table choice fails |
| Apec.BuiltGeneratorIsReady | soxs/spectra.py:666-698 | given a rising temperature table and usable atomic weights for Z = 1..30 and for the varied elements, a constructed generator is ready: rising edges, positive wavelength bounds, and readable abundances and weights for every grouped and varied element |
| Apec.PositiveSteps | soxs/spectra.py:667 | every bin width of rising edges is positive |
| Apec.HistBin | soxs/spectra.py:769 | the bin a value falls in is a valid bin |
| Apec.HistBinPlaces | soxs/spectra.py:769 | values outside the edges are dropped; bins are half open except the last, which takes its upper edge |
| Apec.Histogram | soxs/spectra.py:769 | the histogram has `nbins` entries |
| Apec.HistogramKeepsInBandWeight | soxs/spectra.py:769 | the histogram holds the whole weight of the in-range values and none of the others |
| Apec.HistogramNonNegative | soxs/spectra.py:769 | non-negative weights give non-negative bins |
| Apec.SelectLines | soxs/spectra.py:755-760 | exactly the rows of the element with a wavelength strictly inside the window, and in NEI with `ion_drv == ion + 1` |
| Apec.LineEnergies | soxs/spectra.py:761 | one redshifted line energy per selected line |
| Apec.LineAmplitudes | soxs/spectra.py:762 | one amplitude per selected line |
| Apec.LineWidths | soxs/spectra.py:764-766 | one thermal and turbulent width per line |
| Apec.LineSpectrum | soxs/spectra.py:752-770 | the line part has `nbins` entries |
| Apec.ContinuumRow | soxs/spectra.py:772-778 | the first continuum row with `Z == element` and `rmJ == ion + nei`, or none exactly when no row matches |
| Apec.InterpOnto | soxs/spectra.py:786 | the curve interpolated at every bin midpoint |
| Apec.ContinuumPart | soxs/spectra.py:780-792 | one continuum contribution per bin |
| Apec.MakeSpectrum | soxs/spectra.py:749-794 | an element's spectrum has `nbins` entries |
| Apec.LinesOnlyKeepInBandAmplitudes | soxs/spectra.py:769-776 | binned lines of an element with no continuum row carry the amplitude of every in-band line, not multiplied by the redshift factor |
| Apec.ContinuumPartNonNegative | soxs/spectra.py:780-792 | non-negative continuum values give a non-negative contribution |
| Apec.LineSpectrumNonNegative | soxs/spectra.py:754-770 | without broadening, non-negative emissivities give non-negative line bins |
| Apec.MakeSpectrumNonNegative | soxs/spectra.py:749-794 | without broadening, an element's spectrum is non-negative in every bin when its inputs are |
| Apec.RedshiftFactor | soxs/spectra.py:811 | `1 / (1 + z)` is positive for z > -1 |
| Apec.CosmicPairs | soxs/spectra.py:824-829 | one (Z, ion) pair per cosmic element |
| Apec.MetalPairs | soxs/spectra.py:833-834 | one (Z, 0) pair per metal |
| Apec.GroupSpectrumStep | soxs/spectra.py:824-831 | each element of a group adds its spectrum to the group's row |
| Apec.AddGroup | soxs/spectra.py:824-831 | the `+=` loop over a group computes the group's summed spectrum |
| Apec.VarColumnAt | soxs/spectra.py:838-841 | entry j of a temperature's varied column is the j-th varied pair's spectrum |
| Apec.VarColumnsAt | soxs/spectra.py:838-841 | column i, entry j is the j-th varied pair's spectrum at `indices[i]` |
| Apec.Transposed | soxs/spectra.py:840 | swapping the first two axes: `rows[j][i] == cols[i][j]` |
| Apec.VarColumnsTransposed | soxs/spectra.py:838-841 | the transposed columns are `vspec[j, i, :]` |
| Apec.TableColumn | soxs/spectra.py:821-842 | one temperature's cosmic row, metal row and varied spectra |
| Apec.AppendColumn | soxs/spectra.py:821-842 | one more iteration of the outer loop extends each table by that temperature |
| Apec.GroupRowsAt | soxs/spectra.py:821-831 | row i of a group's table is the group's summed spectrum at table index `indices[i]` |
| Apec.GetTable | soxs/spectra.py:809-844 | `cspec[i]` and `mspec[i]` are the group sums at `indices[i]`; `vspec` is present exactly when elements vary, and `vspec[j][i]` is pair j at `indices[i]` |
| Apec.SpectrumInit | soxs/spectra.py:846-852 | the only failure is reading the temperature table out of range |
| Apec.TemperatureBracket | soxs/spectra.py:850-852 | a single temperature raises for every kT; with at least two, kT <= Tvals[0] gives tindex -1; kT above the last raises; inside, `Tvals[tindex] < kT <= Tvals[tindex+1]` with dT in (0, 1], and dT = 1 on a grid point |
| Apec.InsideTable | soxs/spectra.py:850-851 | inside the table, tindex is the searchsorted count minus 1 and dT is the fraction of the bracket |
| Apec.Blend | soxs/spectra.py:891 | the blend has the rows' length |
| Apec.BlendAt | soxs/spectra.py:891 | bin i is `(1 - dT) row0[i] + dT row1[i]` |
| Apec.BlendBetween | soxs/spectra.py:891-892 | for dT in [0, 1] every bin lies between the two rows' values; dT = 0 gives the lower row and dT = 1 the upper |
| Apec.GroupBlend | soxs/spectra.py:891-892 | a group's interpolated spectrum has `nbins` entries |
| Apec.VarBlend | soxs/spectra.py:897 | a varied element's interpolated spectrum has `nbins` entries |
| Apec.NoNamesNoKeys | soxs/spectra.py:894-895 | with no varied elements the only matching abundance dictionary is empty |
| Apec.AddFree | soxs/spectra.py:894-897 | the sum keeps the spectrum's length |
| Apec.AddFreeStep | soxs/spectra.py:895-897 | each dictionary item adds `eabund` times the varied element's blend, found by its first name |
| Apec.AddFreeTerms | soxs/spectra.py:894-897 | the `spec +=` loop computes `base + Σ eabund · blend(vspec[j])` |
| Apec.CieSpectrum | soxs/spectra.py:891-897 | the CIE sum has `nbins` entries |
| Apec.NeiSpectrum | soxs/spectra.py:933-936 | the NEI sum has `nbins` entries |
| Apec.VarTableBlend | soxs/spectra.py:897 | blending the two columns of `vspec` gives the varied element's blend |
| Apec.RowsBlend | soxs/spectra.py:890-892 | blending the two rows `_get_table` returns gives the group's blend |
| Apec.CieSpectrumUnfolds | soxs/spectra.py:891-897 | the CIE spectrum is `cosmic + abund · metal` plus the free terms |
| Apec.NeiSpectrumUnfolds | soxs/spectra.py:933-936 | the NEI spectrum is the H and He blend plus the free ion terms |
| Apec.CieAt | soxs/spectra.py:890-897 | reading the table and accumulating gives the CIE spectrum |
| Apec.NeiAt | soxs/spectra.py:932-936 | reading the table and accumulating gives the NEI spectrum |
| Apec.Normalized | soxs/spectra.py:898 | `1e14 · norm · spec / de` keeps the length |
| Apec.GetSpectrum | soxs/spectra.py:854-899 | NEI generators are refused; keys that do not match the varied names are refused; `_spectrum_init`'s IndexError is passed on; otherwise the CIE output |
| Apec.GetNeiSpectrum | soxs/spectra.py:901-938 | CIE generators are refused; keys that do not match the varied ions are refused; otherwise the NEI output |
| Apec.CieOutputByTemperature | soxs/spectra.py:887-899 | with at least two temperatures, zeros for kT <= Tvals[0]; inside the table, the normalised CIE spectrum blended at the bracket, with dT in (0, 1] |
| Apec.NeiOutputByTemperature | soxs/spectra.py:929-938 | the same for the NEI spectrum |

## Left out

- I/O is not modelled:
  - the XSPEC constructors (`from_xspec*`) and their subprocesses;
  - FITS, HDF5 and text file reads and writes (only the edge arithmetic of `from_file` is kept);
  - the APEC version lookup, path checks and `_preload_data`. The tables come in as `TableData` values, one per temperature.
- `plot`, logging and progress bars are left out.
- Randomness is an input: the Poisson count and the sorted uniforms are given as a sequence of draws.
- `tbabs_cross_section` is a function parameter: it reads an HDF5 table into a global cache and evaluates an order-5 spline.
- `exp`, `sqrt`, the fractional power of `from_powerlaw` and `broaden_lines` are function parameters. Properties that need them are stated under explicit assumptions, such as `exp(a) exp(b) = exp(a + b)` or `exp(x) <= 1` for `x <= 0`.
- IEEE rounding is not modelled; arithmetic is exact real arithmetic. Infinities and NaN appear only where the code depends on them.
- astropy units, `parse_value` and the `Energies` subclass are left out; quantities are plain reals in the units the code converts to. The one conversion that fails, a convolved rate handed to the plain constructor (line 49), is the `UnitConversion` error of `Add`, `Multiply` and `DivideBy`. The keV-to-erg conversion of `emid.to("erg")` (lines 56 and 120) is taken as the factor `erg_per_keV`.
- `AuxiliaryResponseFile.interpolate_area` is an input: the area at each midpoint, or at each drawn energy, is given as a sequence.
- `soxs/constants.py` is not part of this model. Its tables (element names, cosmic and metal groups, abundance tables, atomic weights) and `m_u` and `clight` are inputs (`ApecConfig.Setup`, `Apec.Physics`). Its four numeric constants `erg_per_keV`, `hc`, `sigma_to_fwhm` and `sqrt2pi` are in the module `Constants`, as the decimal values that file computes from astropy's physical constants.
- `np.isclose` is modelled with its default tolerances over exact reals.
- ConvolvedSpectrum's `from_*` constructors raise `NotImplementedError`. The model does not offer them: `FromConstant` and `FromPowerlaw` always build a plain spectrum.
- Spectra.Spectrum.RescaleFlux: a band flux of exactly 0 is reported as `ZeroBandFlux` with the flux unchanged. The code divides by it and numpy fills the flux with infinities or NaN, which the model does not represent in a spectrum.
- Spectra.Spectrum.DivideBy: requires every broadcast divisor to be non-zero. At line 82 numpy divides by a zero without raising and fills those bins with infinities or NaN, which the model does not represent in a spectrum.
- Spectra.Broadcast: with `nbins == 1`, numpy broadcasts an array of any length k against the one-bin flux, and the constructor then builds a spectrum with k flux values on two edges. The model returns `ShapeMismatch` for every length other than 1, because such an object breaks `nbins == len(flux)`, which every other operation relies on.
- Spectra.Spectrum.Multiply: on a one-bin spectrum, gives `ShapeMismatch` where numpy broadcasts, as `Spectra.Broadcast` does.
- Spectra.Spectrum.DivideBy: on a one-bin spectrum, gives `ShapeMismatch` where numpy broadcasts, as `Spectra.Broadcast` does.
- Spectra.Spectrum.Convolve: requires a plain spectrum. Convolving a convolved one raises `UnitConversionError` at lines 1009 and 49; `Multiply` returns that case as `UnitConversion`.
- Sampling.GenerateEnergies: requires a non-decreasing `cumspec`. `_generate_energies` (line 37) calls `np.interp` without checking, and numpy leaves the result unspecified for unsorted knots. The model does not describe what comes out. This ordering holds for every spectrum with non-negative flux and a non-zero total (`Spectra.CumSpecIsDistribution`, `Spectra.CumSpecNonDecreasing`).
- Spectra.Spectrum.Draw: with at least one draw, requires `cumspec` to be finite and non-decreasing. An all-zero spectrum (NaN knots) or a negative bin (falling knots) still samples in the code, with a result numpy leaves unspecified. The model does not describe it.
- Spectra.Spectrum.GenerateEnergies: the same requirement on `cumspec` as `Draw`, for the same reason.
- Spectra.Spectrum.GenerateConvolvedEnergies: the same requirement on `cumspec` as `Draw`, for the same reason.
- Spectra.Spectrum.Evaluate: requires strictly increasing midpoints, which rising edges give (`Spectra.MidpointsInsideBins`). `__call__` (line 61) interpolates over the midpoints without checking, and numpy leaves the result unspecified on unsorted knots.
- Spectra.Spectrum.ApplyForegroundAbsorption: requires every redshifted midpoint to be non-zero for "wabs". At E = 0 the code divides by zero and gets infinities.
- Spectra.Spectrum.AddEmissionLine, Spectra.Spectrum.AddAbsorptionLine: a zero line width is reported as `ZeroLineWidth`. In numpy, dividing a float by zero gives an infinity rather than raising.
- ApecConfig.ParseInt: Python's `int()` also accepts surrounding whitespace and digit-separating underscores. The model accepts only an optional sign followed by ASCII digits.
- ApecConfig.ParseInt: accepts a digit string of any length. Since Python 3.11, `int()` raises `ValueError` for a decimal string of more than 4300 digits, leading zeros included. That limit depends on the interpreter's version and settings, so the model leaves it out. Numbers beyond int64 are refused later anyway, by `NewGenerator`'s `VarElemOverflow`.
- ApecConfig.NewGenerator: accepts an entry such as `"O^000…04"` whose ion is written with more than 4300 digits, where Python 3.11 and later raise `ValueError` at line 715 (see `ApecConfig.ParseInt`).
- ApecConfig.NewGenerator: requires `0 < emin < emax`, `nbins >= 1` and a non-empty temperature table. The code builds a degenerate grid otherwise, with empty arrays, or infinite wavelengths at emin = 0.
- Apec.ContinuumPart: requires each continuum curve's count `N` to lie between 1 and the stored length, with sorted energies. This holds for well-formed APEC files. The code would raise on an empty curve and `np.interp` gives unspecified results on unsorted ones.
- Apec.MakeSpectrum: the accumulation into `tmpspec` is written as a sum of values (lines, then continuum, then pseudo-continuum). The order of addition does not change an exact sum.
- Apec.GetSpectrum: the abundance dictionary is a sequence of (name, value) items in the dictionary's iteration order. A dictionary cannot repeat a key, so only sequences with distinct names stand for real calls. A repeated name would be added twice, which no call can produce.
- Apec.GetNeiSpectrum: the abundance dictionary is represented as in `GetSpectrum`.
- Apec.GetSpectrum, Apec.GetNeiSpectrum: require z > -1. At z = -1 the code divides by zero in `1/(1+z)` (line 811). For z < -1 the scale factor is negative, so the redshifted continuum energies fall instead of rising and `np.interp` (line 786) gives unspecified values.
- Apec.SpectrumInit: requires the temperature table `Tvals` to rise strictly, as the `kT` column of APEC files does. Line 850 calls `np.searchsorted` on it without checking, and on an unsorted table the bracket it finds, and the `dT` at line 851, have no meaning. With two equal temperatures, `dT` is a division by zero.
- Apec.GetSpectrum: requires a rising temperature table (through `Ready`), for the reason given under `Apec.SpectrumInit`.
- Apec.GetNeiSpectrum: requires a rising temperature table (through `Ready`), for the reason given under `Apec.SpectrumInit`.
- Apec.LineSpectrum: with broadening on, `broaden_lines` is a parameter. Non-negativity is proved for the histogram path only.
