# SpinWalk configuration reader and parameter record, in Dafny

This project models the configuration layer of SpinWalk, a Monte-Carlo
simulator of spins diffusing through a magnetic field map:

* `simulation_parameters` (src/miscellaneous.h) is the record every
  simulation reads. It holds fixed-capacity event arrays of 256 entries with
  separate counts, and the defaults its constructor installs. `prepare`
  derives the rotation coefficients, the voxel count and the number of time
  points in place. `dump` reads the arrays up to their counts and estimates
  the memory needed.
* `reader::read_config` (common/reader.h) projects a parsed INI file onto
  three things: the record, the list of sample-length scales and the file
  manifest (category -> paths). `reader::read_fieldmap` copies a field-map
  header into the record and fills the caller's field and mask buffers.

Files:

* `cxx.dfy` (module `Cxx`) holds the C++ facilities the code relies on:
  * `uint32_t` arithmetic modulo 2^32;
  * float-to-integer truncation toward zero;
  * `std::to_string` on loop counters, with a proof that distinct counters
    give distinct strings;
  * the sign of `std::string::compare`;
  * `Host`, the library calls taken as given (`std::stof`, `std::stoi`,
    `cosf`, `sinf`, and reading a stored float back from its bytes).
* `ini.dfy` (module `Ini`) models what the INI library hands the reader:
  sections mapping keys to strings. It also models the indexed keys
  `PREFIX[i]`, whose run ends at the first missing index.
* `params.dfy` (module `Parameters`) holds the record as the class
  `SimulationParameters`, with `prepare`, `dump` and the functions that
  specify them.
* `reader.dfy` (module `Reader`) holds `read_config` and `read_fieldmap`,
  each specified by a function and proved against it.

## Modelling choices

* **Record layout.**
  * The record's fixed arrays are `const` array fields, allocated once by
    the constructor.
  * Its scalar and triple fields are held in one value, `fields: Fields`,
    grouped by the configuration section that writes them: `scan`, `sim`,
    `tissue`, `debug`, `geometry`, `counts` and `derived`, the last being
    what `prepare` writes. Methods update these with datatype updates.
  * The triples `fieldmap_size`, `sample_length` and `scale2grid` are
    sequences of length 3.
* **Fields that only the reader writes.** common/reader.h writes six fields
  that the struct in src/miscellaneous.h does not declare as scalars: `FA`,
  `TE`, `T1`, `T2`, `enRefocusing180` and `enSteadyStateSimulation`. The
  reader was written against an older layout of the record. The model keeps
  them as extra scalar fields: `scan.FA`, `scan.TE`, `tissue.T1`,
  `tissue.T2`, `sim.enRefocusing180` and `debug.enSteadyStateSimulation`.
  `prepare` and `dump` do not read them, and the struct's arrays `TE`, `T1`
  and `T2` are left untouched by the reader.
* **Inputs given as values.**
  * The parsed INI file is an `Option<Ini>`: `None` means the INI library
    could not read it.
  * The file system is the set of paths that exist.
  * An opened field-map file is its header plus the bytes that follow it;
    `None` means it could not be opened.
* **Manifest keys.** These are the four categories the reader uses
  (`Category`), not free strings.
* **In-out arguments.** `read_config` takes the scale list and the manifest
  by reference; the model takes them in and returns their new values.
* **Uninitialised fields.** The fields the constructor leaves uninitialised
  hold arbitrary values (`*`).

## Model

| member | source | states |
|---|---|---|
| Cxx.MulU32 | src/miscellaneous.h:115 | a `uint32_t` product is the exact product when it fits |
| Cxx.TruncToInt | src/miscellaneous.h:116 | float-to-integer conversion truncates toward zero, for positive and negative values |
| Cxx.ToString | common/reader.h:44 | `std::to_string(i)` is a non-empty run of decimal digits with no leading zero |
| Cxx.ParseToString | common/reader.h:44 | reading the decimal string of a counter back gives the counter |
| Cxx.ToStringInjective | common/reader.h:44 | distinct counters give distinct strings |
| Cxx.Compare | common/reader.h:112 | only the sign of `compare`'s result is modelled, written -1, 0 or 1 for negative, zero or positive; it is zero exactly when the strings are equal |
| Ini.KeyInjective | common/reader.h:44 | distinct indices give distinct keys `PREFIX[i]` |
| Ini.KeysBelowCount | common/reader.h:44 | the keys `PREFIX[0]`..`PREFIX[n-1]` are n distinct keys |
| Ini.PresentKeysBound | common/reader.h:44 | a section holding the first n indexed keys has at least n keys, so the key loops end |
| Ini.RunFrom | common/reader.h:44-48 | the values of consecutive indexed keys from i: each one present in the section and in order, ending at a missing key |
| Ini.Run | common/reader.h:44-48 | the run from index 0 lists `PREFIX[0]`, `PREFIX[1]`, ... and stops at the first missing index |
| Ini.RunEndsAtFirstGap | common/reader.h:41-48 | with keys 0..k-1 present and k missing, the run is exactly those k values, whatever keys follow the gap |
| Parameters.VoxelCount | src/miscellaneous.h:115 | the voxel count is the product of the three sizes modulo 2^32 for every grid, so exactly the product when that fits in 32 bits |
| Parameters.VoxelCountWraps | src/miscellaneous.h:115 | a 2048^3 grid wraps to 0 voxels in the `uint32_t` product |
| Parameters.Quantize | src/miscellaneous.h:116 | `n_timepoints` is the number of whole dt steps in TR for positive dt; a negative ratio truncates toward zero |
| Parameters.ScaleByStep | src/miscellaneous.h:116 | n steps of dt fit in TR and n+1 steps do not |
| Parameters.Derive | src/miscellaneous.h:113-116 | the derived voxel count is the product of the sizes modulo 2^32, exact when it fits; the time points fill TR |
| Parameters.Prepared | src/miscellaneous.h:111-117 | `prepare` changes only the derived fields, and the triples keep their shape |
| Parameters.PreparedIdempotent | src/miscellaneous.h:111-117 | preparing twice gives the record that preparing once gives |
| Parameters.MiBFloor | src/miscellaneous.h:105-106 | dividing by 1024 twice rounds down to whole MiB |
| Parameters.MiBCount | src/miscellaneous.h:105-106 | the MiB figure fits in 16 bits and is the whole MiB below the byte count while that fits |
| Parameters.FieldmapMB | src/miscellaneous.h:105 | the field-map figure is the whole MiB of five bytes per voxel, for every grid: the 16-bit store never truncates it |
| Parameters.SpinWords | src/miscellaneous.h:106 | `n_spins * 3 * (4 + n_TE)` is the product modulo 2^32, with `4 + n_TE` converted to `uint32_t` too, so exact when it fits in 32 bits |
| Parameters.VariablesMB | src/miscellaneous.h:106 | the variables figure is the whole MiB of four bytes per spin word, for every input: the 16-bit store never truncates it |
| Parameters.ReadPrefix | src/miscellaneous.h:83-84 | a counted loop reads exactly the entries below the count, none for a negative count |
| Parameters.ReadTimes | src/miscellaneous.h:85 | the echo, RF, dephasing and gradient time loops yield the entries below the count in seconds |
| Parameters.ReadGradients | src/miscellaneous.h:93 | the gradient loop yields one (x, y, z) row per gradient |
| Parameters.SimulationParameters.constructor | src/miscellaneous.h:50-78 | the defaults: TR 0.04, dt 5e-5, B0 9.4, zero counts, the flags, zero grid and lengths, T1 2.2 and T2 0.04 everywhere, every event array zero |
| Parameters.SimulationParameters.Prepare | src/miscellaneous.h:111-117 | after `prepare` the record is `Prepared` of the record before it |
| Parameters.SimulationParameters.Dump | src/miscellaneous.h:80-109 | `dump` reads each array only below its count, which stays in bounds when counts are at most 256; it reports those entries and the two MiB estimates, the RAM figure scaled by the number of sample scales, and changes nothing |
| Parameters.PrepareTwice | src/miscellaneous.h:111-117 | calling `prepare` twice leaves the record as one call does |
| Reader.Flag | common/reader.h:112 | a switch is off exactly when its text is "0" |
| Reader.FirstMissing | common/reader.h:49-55 | the position of the first path that does not exist: all paths before it exist |
| Reader.CollectFieldMaps | common/reader.h:44-56 | the field-map loop succeeds exactly when every listed path exists and then holds the whole run; otherwise it holds the run up to and including the first missing path |
| Reader.FieldMapsRead | common/reader.h:46-55 | after a failed field-map loop the list is a non-empty prefix of the run that ends with the missing path, all earlier paths existing |
| Reader.CollectScales | common/reader.h:116-117 | the scale loop converts every `SAMPLE_LENGTH_SCALES[i]` up to the first gap, in order |
| Reader.FilesSection | common/reader.h:41-82 | the field-map list is replaced by the run only when `FIELD_MAP[0]` is present; `m0`/`xyz0` are cleared and keep their path only if it exists; `OUTPUTS` replaces the output list unchecked; absent keys keep their lists |
| Reader.ScanSection | common/reader.h:86-98 | present keys set TR, dwell time, dummy scans and FA in radians; absent keys keep their values; TE is always half of TR |
| Reader.SimulationSection | common/reader.h:101-120 | present keys set B0, the seed modulo 2^32, the truncated spin count, the diffusion constant, the refocusing switch and the scale count; absent keys keep their values |
| Reader.ScalesSection | common/reader.h:113-119 | the scale list is replaced by the converted run only when `SAMPLE_LENGTH_SCALES[0]` is present |
| Reader.TissueSection | common/reader.h:123-129 | present keys set T1 and T2; absent keys keep them |
| Reader.DebugSection | common/reader.h:132-138 | present keys set the two debug switches by the "0" rule; absent keys keep them |
| Reader.Configure | common/reader.h:38-138 | each section writes only its own fields, absent sections write nothing, the field-map count follows the manifest, and TE is half of TR after the scan section |
| Reader.UnreadableChangesNothing | common/reader.h:23-36 | a missing or unparsable configuration file returns false and changes nothing |
| Reader.FailureCases | common/reader.h:23-55 | `read_config` fails exactly on a missing or unreadable file or a missing field map; then the record and scales are untouched and only the field-map list changes, ending with the missing path |
| Reader.SuccessIsPrepared | common/reader.h:140-141 | every successful read ends prepared, with the manifest's categories kept |
| Reader.SuccessFieldMapCount | common/reader.h:41-58 | after a successful read with a `files` section, `n_fieldmaps` is the field-map list's length, and every listed field map exists when `FIELD_MAP[0]` was given |
| Reader.SuccessScaleCount | common/reader.h:113-118 | after a successful read, `n_sample_length_scales` is the scale list's length whenever `SAMPLE_LENGTH_SCALES[0]` is present |
| Reader.SuccessEchoTime | common/reader.h:97 | after a successful read, TE is half of TR whenever the scan section is present |
| Reader.AbsentSectionsKeepFields | common/reader.h:38-141 | with no known sections the reader only prepares the record |
| Reader.ReadFieldMapList | common/reader.h:41-57 | the field-map part of the `files` block fails exactly when a listed path is missing, leaving `FieldMapsRead` in the list; otherwise the list is the run when `FIELD_MAP[0]` is present and unchanged when it is not |
| Reader.ReadOtherFiles | common/reader.h:60-82 | the `m0`, `xyz0` and `OUTPUTS` keys update the manifest as `FilesSection` says of them |
| Reader.ApplyFiles | common/reader.h:39-83 | the `files` block fails exactly when a listed field map is missing, leaving the record untouched; otherwise it yields `FilesSection` and sets the count |
| Reader.ApplyScan | common/reader.h:86-98 | the scan block updates the record as `ScanSection` says |
| Reader.ReadSimulationScalars | common/reader.h:103-112 | the simulation keys before the scales update the settings as `SimulationSection` says of them |
| Reader.ApplySimulation | common/reader.h:101-120 | the simulation block updates the record and scale list as `SimulationSection` and `ScalesSection` say |
| Reader.ApplyTissue | common/reader.h:123-129 | the tissue block updates the record as `TissueSection` says |
| Reader.ApplyDebug | common/reader.h:132-138 | the debug block updates the record as `DebugSection` says |
| Reader.ReadConfig | common/reader.h:21-142 | `read_config` returns and leaves in its arguments exactly `ReadConfigResult` |
| Reader.WithHeader | common/reader.h:157-159 | the header's sizes and lengths are copied, the voxel count is their `uint32_t` product, and nothing else changes |
| Reader.ReadFloats | common/reader.h:170 | the field buffer receives the first n stored floats |
| Reader.ReadBytes | common/reader.h:171 | the mask buffer receives n bytes |
| Reader.FieldBuffers.Load | common/reader.h:160-171 | both buffers are reallocated to n elements only when the field buffer's size differs from n; the field gets n floats and the mask the n bytes after them |
| Reader.ReadFieldmap | common/reader.h:145-174 | an unopenable file returns false and changes nothing; otherwise the header is copied, the buffers are resized as needed and filled, and it returns true |
| Reader.LoadedCountSurvivesPrepare | common/reader.h:159 | the voxel count set by `read_fieldmap` is the one `prepare` recomputes |

## Left out

- The INI parser (`ini.h`) is not part of this model. Its result is an input,
  with `None` for a file it cannot read.
- `std::filesystem::exists` is not modelled. It becomes membership in a given set of existing paths.
- All console output is left out, including the text of `dump`, `print_logo`
  and the version macros. `dump` is modelled as the values it reads and
  computes, and it does not report the plain scalars it prints.
- Floating point is modelled as real numbers. This leaves out float rounding
  in `std::stof`, in `TR / dt` and in the degree-to-radian products.
  `cosf`, `sinf` and the decoding of stored floats are taken as given
  functions, and no trigonometric fact is used.
- `std::stof` and `std::stoi` throw on text that is not a number; the model
  treats them as total functions.
- `std::map::at` throws for a missing category. `ReadConfig` requires the
  caller's manifest to hold every category it looks up instead of modelling
  the exception.
- `read_fieldmap` does not check for short reads. `ReadFieldmap` requires the
  file to hold at least five bytes per voxel after the header.
- The header layout (`input_header`) is not part of this model. The header is
  three `uint32_t` sizes and three lengths.
- `read_m0` does nothing and returns true, so it is not modelled. The CUDA
  headers are not part of this model.
- Quantize: when `dt` is 0, `TR / dt` is an infinity (NaN when `TR` is 0
  too) and its conversion to `int32_t` is undefined; the model returns 0. It also does not bound the
  result to 32 bits: the C++ conversion is undefined outside that range.
- SimulationSection: the number of spins is the truncated float with no
  bound. The C++ conversion to `uint32_t` is undefined outside its range.
- SimulationParameters.Dump: the RAM figure is the exact product.
  `variables_size_MB * n_sample_length_scales` is an `int` product that can
  overflow.
- FieldBuffers.Load: a resize is modelled as fresh allocation. `std::vector`
  keeps the old prefix, but every element is overwritten right after.
- FieldBuffers.Load: when the field buffer already has n elements, the mask
  is not resized, and the source never checks that it holds n bytes; a
  shorter mask is overrun. `Load` and `ReadFieldmap` require the mask to be
  long enough in that case.
- FieldBuffers.Valid: the two buffers are required to be distinct objects.
  They are distinct `std::vector`s in the source, but the verifier cannot
  derive that from their element types.
