# DSP_Project in Dafny

This project models the deterministic core of an audio frequency-division
multiplexing (FDM) demonstrator and proves properties of it. The
demonstrator does the following:

- It loads two stereo recordings, brings them to one rate and trims them to
  one length. It divides each recording by its peak and splits the pair into
  four mono channels.
- It puts each channel through its own fourth-order Butterworth filter.
- It upsamples the channels to 192 kHz and places each on its own cosine
  carrier. The products are summed into one composite signal.
- It recovers every channel by band-pass isolation, mixing with the same
  carrier, low-pass filtering and downsampling. The UI lets the user choose
  which physical channel feeds which slot. It saves each recovered channel
  to a file named after that channel.
- A separate script archives the project's sources.

Modules, one per file:

- `Outcomes` (outcomes.dfy): the faults the pipeline can raise, and a
  `Result` type.
- `Peaks` (peaks.dfy): `np.max(np.abs(.))` and the two peak normalisations.
  The guarded one is used while loading. The unguarded one is used on the
  composite and on every recovered channel. It turns a silent buffer into
  NaN, which is modelled as `NotANumber(n)`.
- `Numerics` (numerics.dfy): the scipy and numpy routines as an opaque
  `Library` value. It also holds `signal.butter`'s check of its critical
  frequencies and the length formula `int(len * to / from)`.
- `Loading` (loading.dfy): `load_and_prep_data`.
- `FilterBank` (filterbank.dfy): `design_and_apply_filters`.
- `Spectrum` (spectrum.dfy): `compute_spectrum`.
- `Modulator` (modulator.dfy): `modulation_process`.
- `Demodulator` (demodulator.dfy): `demodulation_process`.
- `Selection` (selection.dfy): the channel-order check, the reorder, and
  the output file names of app.py.
- `Archive` (archive.dfy): zip_project.py's walk. The directory tree is
  an input, and the archive is the sequence of entries written, in order.

Code that builds its results step by step is modelled by methods, each
proved against a specification function:

- `DesignAndApplyFilters` appends the four filtered channels and their
  descriptions one statement after another, as the source does; it has no
  loop.
- `Modulate` and `Demodulate` build their output lists by appending inside
  loops.
- `RecoverOne` clamps the band edges in place.
- `WriteFiles` and `ZipProject` are the archive loops.

Expression-only code is modelled by functions.

How the loader normalises: the peak that divides a stereo source is taken
over both columns together (`np.max(np.abs(y1))` on the two-dimensional
buffer), so a channel can stay below full scale
(`Peaks.ChannelMayStayBelowFullScale`).

How the composite and the recovered channels are normalised: they are
divided by their peak with no zero guard (dsp.py:171, dsp.py:219), unlike
the guarded division of the loader (dsp.py:32-33). A silent buffer
therefore becomes NaN throughout and is not skipped.

Where the code and its documentation disagree, the model follows the code:

- **Carriers:** the code uses 10, 25, 45 and 70 kHz (dsp.py:149). The
  docstring of `modulation_process` lists 10, 20, 35 and 60 kHz
  (dsp.py:138-141).
- **Isolation bands:** the third and fourth bands are [35k, 55k] and
  [55k, 85k]. They touch at 55 kHz.

## Model

| member | source | states |
|---|---|---|
| Peaks.Peak | dsp.py:171 | the peak of a one-dimensional buffer (the composite here, a recovered channel at dsp.py:219) bounds every sample's magnitude and is attained by one of them |
| Peaks.JointPeak | dsp.py:32-33 | the peak of a two-dimensional recording over all its columns bounds every sample's magnitude and is attained by one sample of one column |
| Peaks.PeakZeroIffSilent | dsp.py:32 | the peak is zero exactly when every sample is zero |
| Peaks.PeakOfScaled | dsp.py:32 | dividing by a positive gain divides the peak by that gain |
| Peaks.ScaledByOwnPeak | dsp.py:171 | a buffer with sound divided by its own peak has peak exactly 1 and every sample in [-1, 1] |
| Peaks.DivideByPeak | dsp.py:171 | unguarded division keeps the length; it is NaN exactly when the input is silent; otherwise the result is the input divided by its peak, has peak 1 and lies in [-1, 1] |
| Peaks.JointPeakOfScaled | dsp.py:32 | dividing every column by one gain divides the joint peak of the buffer by that gain |
| Peaks.NormalizeGuarded | dsp.py:32-33 | columns and lengths are kept; a silent buffer is returned unchanged; otherwise every column is divided by the joint peak |
| Peaks.NormalizeGuardedBounds | dsp.py:32-33 | after the guarded normalisation the joint peak is 1 (or 0 for a silent buffer) and every sample lies in [-1, 1] |
| Peaks.NormalizeGuardedIdempotent | dsp.py:32-33 | normalising an already normalised buffer changes nothing |
| Peaks.ChannelMayStayBelowFullScale | dsp.py:32 | the joint peak can leave one column with a peak below 1 |
| Numerics.Butter | dsp.py:58 | `signal.butter` accepts exactly the valid critical frequencies (each in (0, 1), two increasing ones for a band-pass) and then yields the design of the given order, kind and frequencies; otherwise InvalidCriticalFrequency |
| Numerics.ResampledLengthBounds | dsp.py:20 | `ResampledLength(n, to, from)`, which models `int(n * to / from)`, is the largest m with m * from <= n * to |
| Numerics.RoundTripLength | dsp.py:156 | converting n samples up to a higher rate and back gives n or n - 1 samples |
| Numerics.ResampleColumns | dsp.py:21 | resampling a buffer along axis 0 keeps the number of columns and gives each the requested length |
| Loading.Conform | dsp.py:19-24 | a recording at the target rate is returned unchanged; otherwise every column is resampled to `int(len * target / rate)` frames |
| Loading.Trim | dsp.py:27-29 | every column is cut to its first n frames |
| Loading.Prefix | dsp.py:19-29 | after conversion and trimming every column has n frames and is a prefix of the converted column |
| Loading.SplitChannels | dsp.py:37-42 | four channels File1-L, File1-R, File2-L, File2-R (columns 0 and 1 of each buffer) when both buffers have at least two columns; TooFewChannels otherwise |
| Loading.LoadAndPrep | dsp.py:9-44 | succeeds exactly when the common length is positive and both recordings have at least two columns; otherwise EmptySignal (empty) or TooFewChannels; on success there are four channels at the target rate |
| Loading.LoadShape | dsp.py:27-42 | a successful load has four channels, each of length min(len1, len2) after rate conversion |
| Loading.NormalizeGuardedIsGain | dsp.py:32-33 | the guarded normalisation divides by one positive gain: the joint peak, or 1 for a silent buffer |
| Loading.LoadChannelsAreScaledPrefixes | dsp.py:27-42 | channel 2s+j is column j of recording s, converted and trimmed, divided by that recording's gain |
| Loading.LoadAtTargetRateKeepsSamples | dsp.py:19-29 | at the target rate nothing is resampled: the common length is that of the shorter recording and every column is a prefix of the decoded one |
| Loading.LoadedSamplesInUnitRange | dsp.py:32-42 | every loaded sample lies in [-1, 1] |
| FilterBank.SlotWn | dsp.py:55-76 | each critical frequency times the Nyquist frequency is the cutoff in hertz |
| FilterBank.NormalizedCutoff | dsp.py:58 | a cutoff over the Nyquist frequency is positive, and below 1 exactly when the cutoff is below fs / 2 |
| FilterBank.SlotDesignValid | dsp.py:57-79 | slot i is designed without error exactly when fs exceeds 4000, 10000, 20000, 20000 respectively; band edges increase |
| FilterBank.DesignAndApplyFilters | dsp.py:46-81 | builds the bank exactly when fs > 20000, otherwise InvalidCriticalFrequency; slot i filters channels[i] alone with the slot's order-4 design and keeps its length; the four descriptions come in slot order |
| FilterBank.DefaultRateDesignsBank | dsp.py:9 | at the default rate of 44.1 kHz every slot is designed |
| Spectrum.ComputeSpectrum | dsp.py:83-94 | an empty input is refused; otherwise both sequences have n // 2 entries, bin k sits at k * fs / n and its magnitude is the transform magnitude over n, never negative |
| Spectrum.FftFreq | dsp.py:87 | `np.fft.fftfreq(n, 1 / fs)` has n bins; their values are stated by FftFreqLowerHalf and FftFreqSigns |
| Spectrum.FftFreqLowerHalf | dsp.py:87 | the first n // 2 bins of `fftfreq` are 0, fs / n, 2 fs / n, ... |
| Spectrum.FftFreqEvenlySpaced | dsp.py:87 | consecutive non-negative bins are fs / n apart |
| Spectrum.FftFreqSigns | dsp.py:87 | a bin is non-negative exactly when k <= (n - 1) / 2, and each such bin is below fs / 2 |
| Spectrum.KeptHalf | dsp.py:90-92 | for even n the kept half is exactly the non-negative bins; for odd n the last non-negative bin is dropped |
| Modulator.Composite | dsp.py:161-168 | the summed composite has the common length n; its samples are stated by CompositeExtend |
| Modulator.CompositeExtend | dsp.py:161-168 | the composite is the sum over channels: adding channel i adds, at sample k, its sample times cos(2 pi fc_i k / 192000) |
| Modulator.Modulate | dsp.py:96-173 | upsamples each channel to `int(len * 192000 / fs)` samples and divides the sum of the channels on their carriers by its peak; refuses an empty composite; returns the carriers 10/25/45/70 kHz and the 192 kHz rate |
| Modulator.SilentSum | dsp.py:168 | summing silent channels gives zero |
| Modulator.SilentChannelsGiveNotANumber | dsp.py:171 | silent channels give a composite of NaN, with no zero guard |
| Modulator.CarriersBelowNyquist | dsp.py:148-149 | the carriers increase and lie below the 96 kHz Nyquist frequency |
| Modulator.UpsampledLengthAtDefaultRate | dsp.py:156 | from 44.1 kHz a channel is upsampled to at least four times its length |
| Demodulator.Band | dsp.py:195-199 | the band is fc ± bw, clamped to [100, nyq - 100], and each clamp fires only when its edge crosses |
| Demodulator.Downconvert | dsp.py:205 | mixing down keeps the length; the model is the body itself, sample k times the carrier at k times 2 |
| Demodulator.DownconvertOfMixed | dsp.py:205 | mixing a channel on carrier fc down with the same carrier gives twice the channel times the carrier squared |
| Demodulator.Baseband | dsp.py:195-212 | succeeds exactly when the clamped band's edges increase and the recovery cutoff lies below the Nyquist frequency; then the result is the low-pass of the mixed-down band-pass of the composite, with the band-pass built from `Band`, and keeps the composite's length; otherwise InvalidCriticalFrequency |
| Demodulator.BandPassAccepted | dsp.py:201 | a band clamped into [100, nyq - 100] is a design `signal.butter` accepts exactly when its edges increase |
| Demodulator.LowPassAccepted | dsp.py:211 | a positive cutoff is a design `signal.butter` accepts exactly when it lies below the Nyquist frequency |
| Demodulator.RecoverChannel | dsp.py:195-220 | fails exactly when a design is refused (InvalidCriticalFrequency) or `int(len * original_fs / fs_high)` is zero (EmptySignal); otherwise the baseband resampled to that length divided by its peak without a guard: NaN exactly when that is silent, else peak 1 and every sample in [-1, 1] |
| Demodulator.RecoverOne | dsp.py:193-220 | one loop pass with in-place clamping computes exactly the recovery of the channel |
| Demodulator.Demodulate | dsp.py:175-222 | succeeds exactly when every carrier's recovery succeeds, with one channel per carrier in carrier order; otherwise returns the fault of the first failing carrier |
| Demodulator.StandardBandsAre | dsp.py:190-199 | at 192 kHz no clamp fires and the bands are [6k,14k], [19k,31k], [35k,55k], [55k,85k] |
| Demodulator.StandardBandsOrdered | dsp.py:190-199 | each band contains its carrier; the bands are ordered and disjoint as open intervals; the third and fourth touch at 55 kHz |
| Demodulator.ImageFrequency | dsp.py:207 | the image of twice the carrier, folded into [0, fs / 2] |
| Demodulator.CutoffsBelowImages | dsp.py:210 | every recovery cutoff lies below the folded image of its carrier |
| Demodulator.DesignedAtWorkingRate | dsp.py:201-211 | at 192 kHz both designs of every standard carrier are accepted |
| Demodulator.StandardRecovery | dsp.py:192-220 | with the standard carriers, recovery fails only when no sample remains at the original rate (EmptySignal), else has that many samples |
| Demodulator.RecoveredLength | dsp.py:215 | a channel of L samples comes back with L or L - 1 samples |
| Selection.ValuesCount | app.py:47 | a sequence has at most as many distinct values as entries, exactly as many when no value repeats |
| Selection.Accepted | app.py:47 | `len(set(order)) == 4`; what it means is stated by AcceptedIffDistinct and AcceptedNamesEveryChannel |
| Selection.AcceptedIffDistinct | app.py:47 | `len(set(order)) == 4` holds exactly when the four picks are pairwise distinct |
| Selection.AcceptedNamesEveryChannel | app.py:35-47 | an accepted choice names each of the channels 1 to 4 |
| Selection.DefaultOrderAccepted | app.py:37-45 | the preselected order [1, 2, 3, 4] is accepted and a repeated pick is not |
| Selection.Reorder | app.py:61 | slot i receives raw channel order[i] - 1, and there are as many slots as picks |
| Selection.GatherIsPermutation | app.py:61 | reading a sequence through a permutation of its indices is a permutation of it |
| Selection.ReorderIsPermutation | app.py:61 | under an accepted choice the reordered channels are a permutation of the loaded ones |
| Selection.Decimal | app.py:167 | `str(n)` is one or more decimal digits, one exactly when n < 10 |
| Selection.DecimalInjective | app.py:167 | different numbers have different decimal renderings |
| Selection.OutputPath | app.py:167 | the path starts with `outputs/recovered_ch_` and ends with `.wav` |
| Selection.OutputPathInjective | app.py:167 | different channel numbers give different paths |
| Selection.OutputPathsDistinct | app.py:167 | under an accepted choice the four recovered files are distinct |
| Archive.LastDot | zip_project.py:19 | the index of the last '.', or -1 when there is none |
| Archive.Extension | zip_project.py:19 | a non-empty extension is a suffix that starts at the last dot and has a non-dot before it; an empty one means only dots precede the last dot |
| Archive.ExtensionAt | zip_project.py:19 | the extension of a name is fixed by its last dot and what precedes it |
| Archive.Admitted | zip_project.py:15-20 | a file other than the archive is admitted when its extension is listed or it is named `.gitignore`; the consequences are stated by ArchiveSkipRedundant, HiddenGitignore, SuffixGitignore and UpperCaseExtension |
| Archive.Kept | zip_project.py:12 | pruning keeps exactly the subdirectories whose names are not excluded |
| Archive.FilesOf | zip_project.py:14-23 | the entries of one directory are exactly its admitted files at its path |
| Archive.WriteFiles | zip_project.py:14-23 | the loop appends exactly the directory's admitted files in listing order |
| Archive.Visit | zip_project.py:10-23 | reference definition of the walk: a directory's admitted files, then each kept subdirectory in turn; its contents are stated by VisitMembers and VisitNoRepeats |
| Archive.PushChildren | zip_project.py:10-12 | pushing the kept subdirectories schedules exactly their walks |
| Archive.ZipProject | zip_project.py:9-23 | the archive written is the preorder walk of the pruned tree |
| Archive.VisitMembers | zip_project.py:10-23 | an entry is written for a directory exactly when it lies below it along kept directories and is admitted |
| Archive.ArchiveMembership | zip_project.py:9-23 | the archive holds exactly the admitted files reachable from the root without entering an excluded directory |
| Archive.ArchiveAvoidsExcluded | zip_project.py:7-16 | no entry passes through `__pycache__`, `outputs` or `.git`, and none is the archive itself |
| Archive.ArchiveSkipRedundant | zip_project.py:15-20 | the archive's extension `.zip` is not listed, so admission is decided by the extension and name rule alone |
| Archive.HiddenGitignore | zip_project.py:19-20 | `.gitignore` has no extension and is admitted by the name clause |
| Archive.SuffixGitignore | zip_project.py:19-20 | `foo.gitignore` is admitted by its extension |
| Archive.UpperCaseExtension | zip_project.py:19-20 | extensions are compared case-sensitively: `NOTES.TXT` is not admitted |
| Archive.KeptUniqueNames | zip_project.py:12 | pruning keeps directory names distinct |
| Archive.VisitNoRepeats | zip_project.py:21-23 | in a tree with unique names nothing is written twice below a directory |
| Archive.ArchiveWrittenOnce | zip_project.py:21-23 | in a tree with unique names every admitted file is written once |

## Left out

- Numerical routines. `signal.butter`, `signal.sosfilt`, `signal.resample`,
  `np.fft.fft` and `np.cos` are foreign floating-point routines. They are
  the fields of a `Library` value, and only their result lengths are
  assumed, plus non-negative magnitudes. Nothing is claimed about frequency
  responses, aliasing or how faithfully a tone is recovered. A request for
  zero samples is modelled as giving an empty buffer, whose peak then
  fails (EmptySignal); `signal.resample(x, 0)` already raises itself. Both
  raise, so only the point of failure differs.
- The critical-frequency check. It is the only part of `signal.butter`
  that is interpreted: each frequency must lie in (0, 1), and a band-pass
  needs two increasing frequencies.
- Floating point. Samples are reals. `int(len * a / b)` is the exact floor,
  so Python's float division could differ at exact boundaries. A NaN is
  represented only by the `NotANumber` outcome of the unguarded division.
- Demodulate: the composite is a sequence of reals, so a NaN composite
  from `Modulate` is not carried into demodulation.
- File I/O. `sf.read` and `sf.write` are not modelled: the decoded
  recordings are inputs, and the output file names are computed but not
  written. `zipfile` and `os.walk` are not modelled either: the directory
  tree is an input, and the archive is the sequence of entries.
- The print calls of zip_project.py.
- The Streamlit UI of app.py: its widgets, plots, audio players, session
  state and download button. The order in which app.py calls the stages
  (app.py:57-70) is not one operation here. Each stage is modelled on its
  own.
- generate_dummy_wavs.py is not part of this model.
- DesignAndApplyFilters: requires at least four channels and a positive
  rate. Fewer channels make the source raise IndexError; a rate of 0 makes
  it raise ZeroDivisionError.
- Modulate: requires one to four channels of equal length and a positive
  rate. These are the shapes the source can index and broadcast.
- Demodulate: requires at most four carriers, which is the size of the
  half-width and cutoff tables, and positive rates.
- ComputeSpectrum: requires a non-zero rate, because `d = 1 / fs` raises
  ZeroDivisionError for 0.
- LoadAndPrep: requires well-formed recordings, meaning at least one
  column, equally long columns and a positive rate, which is what a decoder
  delivers.
- LoadAndPrep and Conform: require a positive target rate. The source
  accepts any `target_fs` (dsp.py:9); with a zero or negative target the
  model does not say what happens (the source then asks `signal.resample`
  for zero or a negative number of samples).
