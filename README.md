# ExtractorSolver configuration and result state

StellarSolver plate-solves astronomical images: it extracts stars from the pixels and works out
which patch of sky the image shows. Every extractor/solver back end derives from the
`ExtractorSolver` base class. This class holds the options a run is configured with. It also holds
the search hints that narrow the solve (a scale range with its units, a sky position and an
extraction subframe) and the result state that a back end fills in (the extracted stars, the
solution, and the "extracted / solved / has WCS / aborted" flags).

This project models that base class:

- `solver_types.dfy` (module `SolverTypes`) holds the value types. These are the `SSolver`
  enumerations, with an extra `OtherUnits` for a scale-unit value outside the four named ones,
  and the image, star, background and solution records. It also holds the scale-unit keyword
  mapping that the astrometry engine reads.
- `search_hints.dfy` (module `SearchHints`) states the search hints as a value, `SearchConfig`.
  It gives the effect of each hint setter on that value. Its lemmas say what any sequence of
  setter calls leaves behind: each group of hint fields holds what the last setter of that group
  wrote, or keeps its old value if no such setter ran. The setters are idempotent, and the scale
  and position setters commute.
- `extractor_solver.dfy` (module `Solver`) is the class `ExtractorSolver`. Its fields are the
  header's fields. The constructor's contract gives the declared initial values. Each setter is a
  method whose `modifies` clause names only the fields it writes, so "touches nothing else" is
  part of its frame. The queries are functions that read the object.

C++ `double` fields are only stored, never computed on. They become `Double`, which is a finite
`real`, `HugeVal` (the `HUGE_VAL` default of the search position), `NegHugeVal` or `NaN`, so the
setters store any double they are given. The `short` index and
healpix numbers are `Int16`. The image buffer is a reference (`array?<bv8>`) that is stored and
never copied.

The enumerators of `ProcessType`, `ExtractorType`, `SolverType` and both logging levels
(`logging_level` and `SSolverLogLevel`, in namespace `SSolver`), and the fields of `Statistic`,
`Star`, `Background` and `Solution`, are declared in `structuredefinitions.h`, which is not part of
this model. Of the logging enumerators, the modelled files use only `LOG_NONE`
(extractorsolver.h:46), `LOG_NORMAL` (extractorsolver.h:47) and `LOG_ALL`
(demos/demosignalsslots.cpp:31); `LogError`, `LogMsg`, `LogVerb` and `LogVerbose` are taken from
the library's headers. The records keep only the fields that the base class and its callers use.

StellarSolver can run several child solvers in parallel. That logic lives in `stellarsolver.cpp`
and the subclasses and is not modelled. The base class only declares `spawnChildSolver` and
`abort`, and it stores the `depthLo`/`depthHi` band that a parent writes into each child.

## Model

| member | source | states |
|---|---|---|
| `SolverTypes.ScaleUnitKeyword` | stellarsolver/extractorsolver.h:121-141 | the keyword is non-empty exactly for the four named units; any other unit value gives the empty string |
| `SolverTypes.ScaleUnitKeywords` | stellarsolver/extractorsolver.h:123-136 | DEG_WIDTH maps to "degwidth", ARCMIN_WIDTH to "arcminwidth", ARCSEC_PER_PIX to "arcsecperpix" and FOCAL_MM to "focalmm" |
| `SolverTypes.ScaleUnitKeywordInjective` | stellarsolver/extractorsolver.h:123-140 | any two units, named or not, with the same keyword are the same unit; only `OtherUnits` has the empty keyword |
| `SearchHints.WithScale` | stellarsolver/extractorsolver.cpp:25-34 | setting the scale turns scale use on and stores low, high and units exactly as given, with no ordering check; position and subframe fields keep their values |
| `SearchHints.WithPosition` | stellarsolver/extractorsolver.cpp:38-45 | setting the position turns position use on and stores RA and Dec; scale and subframe fields keep their values |
| `SearchHints.WithSubframe` | stellarsolver/extractorsolver.h:252-256 | setting the subframe turns subframing on and stores the rectangle; scale and position fields keep their values |
| `SearchHints.SettersIdempotent` | stellarsolver/extractorsolver.cpp:25-45 | calling any of the three setters twice with the same arguments gives the same hints as calling it once (the subframe setter is at stellarsolver/extractorsolver.h:252-256) |
| `SearchHints.ScaleAndPositionCommute` | stellarsolver/extractorsolver.cpp:25-45 | setting scale then position gives the same hints as setting position then scale |
| `SearchHints.Apply` | stellarsolver/extractorsolver.cpp:25-45 | one setter call leaves the two hint groups it does not own unchanged (the subframe setter is at stellarsolver/extractorsolver.h:252-256) |
| `SearchHints.LastCallWins` | stellarsolver/extractorsolver.cpp:25-45 | after any sequence of setter calls, each hint group equals what the last call of that group wrote, or its starting value if there was no such call (the subframe setter is at stellarsolver/extractorsolver.h:252-256) |
| `Solver.ExtractorSolver.constructor` | stellarsolver/extractorsolver.cpp:12-17 | process, extractor and solver types, statistics and buffer reference are stored as given; every other field has its declared initial value (flags false, scale range 0, depths -1, position HUGE_VAL, index and healpix -1, no stars) |
| `Solver.FreshSolverQueries` | stellarsolver/extractorsolver.h:278-297 | on a fresh solver, extraction-done, solving-done and has-WCS are false, no stars were found, index and healpix numbers are -1, and no hint is in use |
| `Solver.ExtractorSolver.SetSearchScale` | stellarsolver/extractorsolver.cpp:25-34 | scale use becomes true and low, high and units hold the arguments; only the four scale fields may change |
| `Solver.ExtractorSolver.SetSearchPositionInDegrees` | stellarsolver/extractorsolver.cpp:38-45 | position use becomes true and RA and Dec hold the arguments; only the three position fields may change |
| `Solver.ExtractorSolver.SetUseSubframe` | stellarsolver/extractorsolver.h:252-256 | subframing becomes true and the stored rectangle equals the argument; only the two subframe fields may change |
| `Solver.ExtractorSolver.GetScaleUnitString` | stellarsolver/extractorsolver.h:121-141 | the keyword of the stored unit, non-empty exactly when that unit is one of the four named ones |
| `Solver.ExtractorSolver.GetNumStarsFound` | stellarsolver/extractorsolver.h:171-174 | the length of the extracted-star list; zero exactly when the list is empty |
| `Solver.ExtractorSolver.IsCalculatingHFR` | stellarsolver/extractorsolver.h:243-246 | true exactly when the process type is EXTRACT_WITH_HFR |
| `Solver.ExtractorSolver.HasWCSData` | stellarsolver/extractorsolver.h:216-219 | the WCS flag, read without changing anything |
| `Solver.ExtractorSolver.SolvingDone` | stellarsolver/extractorsolver.h:225-228 | the solved flag, read without changing anything |
| `Solver.ExtractorSolver.ExtractionDone` | stellarsolver/extractorsolver.h:234-237 | the extracted flag, read without changing anything |
| `Solver.ExtractorSolver.GetBackground` | stellarsolver/extractorsolver.h:162-165 | the stored background summary |
| `Solver.ExtractorSolver.GetStarList` | stellarsolver/extractorsolver.h:180-183 | the stored star list, whose length is the number of stars found |
| `Solver.ExtractorSolver.GetSolution` | stellarsolver/extractorsolver.h:189-192 | the stored solution |
| `Solver.ExtractorSolver.GetSolutionIndexNumber` | stellarsolver/extractorsolver.h:198-201 | the stored index number (-1 until a back end records one) |
| `Solver.ExtractorSolver.GetSolutionHealpix` | stellarsolver/extractorsolver.h:207-210 | the stored healpix (-1 until a back end records one) |

## Left out

- `convertToDegreeHeight` (extractorsolver.h:316-336): floating-point unit conversion through astrometry.net's `arcmin2deg`, `arcsec2deg`, `rad2deg` and `atan`. Floating point and foreign calls.
- `extract`, `abort`, `spawnChildSolver`, `cleanupTempFiles`, `appendStarsRAandDEC`, `pixelToWCS`, `wcsToPixel`: pure virtual in the base class. Their behaviour belongs to subclasses, which are not part of this model.
- `execute` / `run`: the thread entry point. It only calls the subclass's `run`.
- `runSEPExtractor` and the use of `convFilter`: pixel-level extraction through the SEP library. The kernel's initial value is modelled; its use is not.
- `logOutput` and `finished`: Qt signals.
- `m_ActiveParameters`: its type is declared in `parameters.h`, which is not part of this model.
- The `QObject *parent` constructor argument: Qt object ownership, with no effect on solver state.
- `background` and `solution` start as default-constructed records. The constructor's contract does not pin down their initial values.
- `scaleUnit` has no initializer in the source, so the constructor's contract leaves it unconstrained. It is meaningful only after `SetSearchScale`.
- `depthLo`, `depthHi`: modelled as unbounded `int`. They are only stored, so 32-bit width never matters.
- `ExternalExtractorSolver` (externalextractorsolver.h): external process control, FITS and star-list file I/O, config-file generation and WCS loading. All of it is I/O.
- Running child solvers in parallel and stopping the rest once one succeeds: not in the base class, and about concurrency.
- The demo programs: image loading, console output and event loops.
