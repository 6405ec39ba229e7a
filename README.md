# DcmConvert in Dafny

A model of the `DcmConvert` class of `src/index.ts`: the library that turns
DICOM files (or in-memory DICOM datasets) into images by building command
lines for the DCMTK tools `dcmj2pnm` and `dcmcjpls` and for the ImageMagick
tools `montage` and `convert`.

What is modelled, module by module:

- `Js` (js.dfy): the slice of JavaScript the library leans on. It covers
  numbers with NaN and the infinities, truthiness, `||`, `Number()` and
  string coercion, and plain objects as ordered key/value lists. It also
  covers `Object.assign`, `replace` of a first occurrence, ASCII
  upper-casing, `join`, and concatenation. `parseFloat` and the
  number-to-text conversion are not written out. They are the
  `NumberFormat` parameter (`parse`, `show`, `coerce`) of every operation
  that needs them.
- `Outcomes` (outcomes.dfy): the errors the library raises, and how a call
  ends. A promise resolves or rejects, or the call throws before a promise
  exists. A call also leaves the trace of side effects it starts: writing a
  dataset to disk, running a DCMTK or ImageMagick program, or sweeping the
  scratch directory.
- `Units` (units.dfy): `string2Pixels` and `options2Pixel`. The latter is a
  method with the `Object.keys(...).forEach` loop, proved against a
  recursive specification.
- `Options` (options.dfy): `initialOptions`, the mosaic defaults and
  `mergeOptions`.
- `Commands` (commands.dfy): `dcm2pnm` and `compress`. Each operation is a
  function from its inputs and the reports of the external programs to the
  outcome and the call trace.
- `Mosaic` (mosaic.dfy): `mosaic`, as an imperative method over the
  caller's array. It nulls the empty slots in place. It then starts one
  conversion per non-empty slot, pushes `null:` for each empty one, and collects the tokens in the order the conversions
  settle. Last it pushes the `montage` pieces and runs `convert` once
  `montage` has succeeded. The method is proved equal to a functional
  specification, `MosaicRun`.
- `TempFiles` (sweep.dfy): `clearTemporaryFiles`, as a loop over the
  directory listing.

Choices a reader should know about:

- The order in which the conversions of a mosaic settle decides the order of
  `JPGFiles`. That order is a parameter, constrained to be a permutation of
  the converted slots. `TokensPerSlot` shows that it changes only the
  order of the tokens, not which tokens there are.
- The guard of the `-tile` term reads `options.columns || options.columns`
  (src/index.ts:227). `columns` is tested twice and `rows` never. The model
  keeps this: `TileIff` states that `-tile` appears exactly when `columns`
  is truthy.
- `dcm2pnm` throws inside the promise executor when writing a dataset fails.
  That throw rejects the promise. `compress` rejects explicitly. Both are
  modelled as a rejection with `UnableToOpen`.
- `mergeOptions` runs before the promise is created. An `options2Pixel`
  failure there therefore throws out of the call. It is modelled as `Thrown`.
  The only such failure is reading `dpi` of a nested `null`
  (`MergeOnlyNullFails`). The walk starts with an undefined dpi, and
  `obj.dpi || dpi` keeps it either undefined (300 in `string2Pixels`) or
  truthy. So 'Invalid value for dpi' cannot come out of `mergeOptions`: an
  option `dpi: 0` falls back to 300.

## Model

| member | source | states |
|---|---|---|
| Js.Lookup | src/index.ts:305 | reading a property gives the value of the first entry with that key, or `undefined` when there is none |
| Js.Keys | src/index.ts:306 | `Object.keys` lists the key of each property, in property order |
| Js.Put | src/index.ts:308 | definition of `ret[k] = v`: an existing key keeps its place with the new value, a new key goes last; stated by `PutLookup` |
| Js.Assign | src/index.ts:89 | definition of `Object.assign`: the source's properties are put into the target one by one, in order; stated by `AssignLookup` and `AssignKeys` |
| Js.PutLookup | src/index.ts:89 | after assigning a property, reading it gives the new value and every other key reads as before |
| Js.AssignLookup | src/index.ts:89 | after `Object.assign`, a key the source has reads the source's value; any other key reads the target's |
| Js.AssignKeys | src/index.ts:89 | `Object.assign` keeps distinct keys, and the keys of the result are those of the target and the source |
| Js.IndexOfFrom | src/index.ts:273 | `indexOf` gives -1 or a position where the pattern occurs, with no earlier occurrence from the start position |
| Js.RemoveFirst | src/index.ts:273 | definition of `replace` with a string pattern: only the first occurrence, found by `IndexOfFrom`, is removed |
| Js.Join | src/index.ts:226 | definition of `JPGFiles.join(' ')`: the parts with the separator between neighbours |
| Js.Concat | src/index.ts:240 | definition of `pmArr.join('')`: the parts one after another |
| Js.ToUpper | src/index.ts:273 | upper-casing keeps the length, and maps each character independently |
| Units.Suffix | src/index.ts:272-273 | definition of `unit`: the value with the first occurrence of its parsed number's text removed, upper-cased |
| Units.StringToPixels | src/index.ts:270-295 | fails iff the unit is `IN`, `CM` or `MM` and the dpi (300 when undefined) is falsy, with that dpi in the error; hands the string back unchanged iff its unit is unknown; otherwise yields a number |
| Units.PixelUnitIgnoresDpi | src/index.ts:275-277 | a bare number or a `px` measurement is the parsed number, whatever the dpi |
| Units.LengthUnitTable | src/index.ts:279-294 | for a truthy dpi, inches, centimetres and millimetres become n·dpi, n/2.54·dpi and n/25.4·dpi, whatever number the dpi coerces to |
| Units.UndefinedDpiIs300 | src/index.ts:270 | an undefined dpi behaves exactly as a dpi of 300 |
| Units.FalsyDpiFails | src/index.ts:291-293 | a length unit at a falsy, defined dpi fails with `Invalid value for dpi` |
| Units.OneInchAt300 | src/index.ts:270-294 | `"1in"` at the default dpi is 300 pixels |
| Units.CentimetresAt300 | src/index.ts:270-294 | `"2.54cm"` at the default dpi is 300 pixels |
| Units.MillimetresAt300 | src/index.ts:270-294 | `"25.4mm"` at the default dpi is 300 pixels |
| Units.PixelsAtZeroDpi | src/index.ts:275-277 | `"42px"` is 42 even at dpi 0: pixels return before the dpi check |
| Units.InchAtZeroDpiFails | src/index.ts:291-293 | `"1in"` at dpi 0 fails with the dpi in the error |
| Units.TrailingZeroPassesThrough | src/index.ts:272-288 | `"1.50in"` comes back unchanged: removing the text "1.5" leaves the unit `0IN` |
| Units.ColourPassesThrough | src/index.ts:272-288 | a colour name such as `"black"` comes back unchanged |
| Units.Options2Pixel | src/index.ts:303-316 | the key-by-key loop computes the recursive normalisation of the object |
| Units.NormaliseObject | src/index.ts:303-316 | definition of `options2Pixel(obj, dpi)`: the walk over the properties at `obj.dpi \|\| dpi`; stated by `ObjectShape` and `NormaliseIdempotent` |
| Units.EntriesShape | src/index.ts:306-314 | the walk succeeds iff every property normalises; the result then has the same keys, in order, with each value normalised |
| Units.EntriesFirstError | src/index.ts:306-314 | a failed walk fails with the error of the first property that fails, every earlier property having converted |
| Units.ObjectShape | src/index.ts:305-314 | the dpi in force is `obj.dpi \|\| dpi`; strings are converted at it, nested objects are normalised at it, other values are copied; a `null` property makes the call fail |
| Units.ValueOnlyNullFails | src/index.ts:305-312 | under a dpi that is undefined or truthy, a value fails to normalise only with the TypeError of a nested `null` |
| Units.EntriesOnlyNullFails | src/index.ts:305-312 | the same for the properties of an object: under such a dpi, a walk fails only on a nested `null` |
| Units.SettledValueFixed | src/index.ts:306-314 | a value with no `null` and only pass-through strings is left as it is |
| Units.SettledEntriesFixed | src/index.ts:306-314 | an object made only of such values is left as it is |
| Units.NormalisedValueSettled | src/index.ts:306-314 | whatever the normalisation produces is itself left as it is |
| Units.NormalisedEntriesSettled | src/index.ts:306-314 | every value of a normalised object is left as it is by a second pass |
| Units.NormaliseIdempotent | src/index.ts:303-316 | normalising a normalised object again, at any dpi, gives it back unchanged |
| Units.PlainDataSettled | src/index.ts:306-314 | data with no string and no `null` at any depth is left as it is |
| Units.PlainObjectUnchanged | src/index.ts:303-316 | an object with no string and no `null` anywhere is returned unchanged |
| Units.InnerDpiOverridesSubtree | src/index.ts:305-310 | for example, in an object whose strings use the default 300 dpi, a nested object with `dpi` 600 has its own strings converted at 600; the general rule is stated by `ObjectShape` |
| Options.Layered | src/index.ts:89 | definition of `Object.assign({}, initialOptions, def, options)`; stated by `LayeredLookup` and `LayeredKeys` |
| Options.Merged | src/index.ts:88-90 | definition of `mergeOptions(def, options)`: `options2Pixel` of the layered object with no dpi; stated by `MergePrecedence` and `MergedWellFormed` |
| Options.MergeOptions | src/index.ts:88-90 | computes `options2Pixel` of `initialOptions`, then the defaults, then the options, layered by `Object.assign` |
| Options.InitialKeysDistinct | src/index.ts:78-82 | `initialOptions` and the mosaic defaults have distinct keys |
| Options.LayeredLookup | src/index.ts:89 | a key reads from the options, else the defaults, else `initialOptions` |
| Options.LayeredKeys | src/index.ts:89 | the layered object has distinct keys, exactly those of the three layers |
| Options.NormalisedLookup | src/index.ts:306-314 | reading a key of a normalised object reads the normalised value of that key |
| Options.MergePrecedence | src/index.ts:88-90 | each merged key is the normalised value from the highest layer that has it |
| Options.MergeOnlyNullFails | src/index.ts:88-90 | `mergeOptions` fails only with the TypeError of a nested `null`, never with 'Invalid value for dpi' |
| Options.BaseDefaults | src/index.ts:78-82 | without caller values, `quality` is 90 and both flips are false |
| Options.DefaultSurvives | src/index.ts:88-90 | a default the caller does not override comes through the merge unchanged |
| Options.MosaicDefaultValues | src/index.ts:184-191 | without caller values, a mosaic has a black background, margin, spacing and rotation 0, and 3 columns and 3 rows |
| Options.PutSettled | src/index.ts:89 | assigning a settled value into a settled object keeps it settled |
| Options.AssignSettled | src/index.ts:89 | `Object.assign` of settled objects is settled |
| Options.MergedWellFormed | src/index.ts:88-90 | a merged object has distinct keys, including those of `initialOptions`, and only settled values |
| Options.RemergeKeepsOptions | src/index.ts:127 | merging already merged options again succeeds, and every key reads back the same |
| Commands.Resolve | src/index.ts:131-142 | a dataset is written to the scratch path and read from there; only an unwritable dataset fails, with `UnableToOpen`; a path is used as given |
| Commands.Dcm2pnmArgs | src/index.ts:144-162 | an argument string exists iff the format is `jpg`, `jpeg`, `tiff`, `bmp` or `png` |
| Commands.Dcm2pnm | src/index.ts:121-174 | throws iff the merge fails, and then does nothing; otherwise the sweep is the last call; an invalid format runs no program; an unwritable dataset rejects with `UnableToOpen` and runs nothing but the write attempt and the sweep; a failing `dcmj2pnm` rejects with its error; it resolves iff the merge succeeds, the input can be written, the format is supported and `dcmj2pnm` succeeds |
| Commands.Dcm2pnmThrowsOnlyNull | src/index.ts:127 | `dcm2pnm` throws only with the TypeError of a `null` inside its options |
| Commands.Compress | src/index.ts:92-119 | never throws; an unwritable dataset rejects with `UnableToOpen` after the write attempt only; otherwise `dcmcjpls` runs once, after the write if any, on the quoted input and destination; it rejects with the tool's error when `dcmcjpls` fails, and resolves iff the input is usable and `dcmcjpls` succeeds, with the file it compressed |
| Commands.FlipFlag | src/index.ts:149 | definition of the nested ternary choosing `+Lhv`, `+Lh`, `+Lv` or nothing; stated by `FlipTruthTable` |
| Commands.FlipTruthTable | src/index.ts:149-158 | the orientation flag is `+Lhv`, `+Lh`, `+Lv` or empty, each exactly for its combination of `flipV` and `flipH` |
| Commands.JpgIsJpeg | src/index.ts:146-150 | `jpg` and `jpeg` give the same argument string |
| Commands.JpegCarriesQuality | src/index.ts:149 | the JPEG argument string holds `--compr-quality` followed by the quality |
| Commands.QualityIgnoredOtherwise | src/index.ts:151-159 | for `tiff`, `bmp` and `png` the quality does not affect the arguments |
| Commands.QuotePrefix | src/index.ts:149 | when two equal strings each start with a quote-free text and a quote, the two texts and what follows the quote agree |
| Commands.QuoteSuffix | src/index.ts:149 | when two equal strings each end with a quoted quote-free text, the two texts and what precedes them agree |
| Commands.CompressArgs | src/index.ts:113 | definition of the `dcmcjpls` argument string: the quoted input, two spaces, the quoted destination; stated by `CompressArgsUnambiguous` |
| Commands.CompressArgsUnambiguous | src/index.ts:113 | with quote-free paths, the `dcmcjpls` argument string determines both paths |
| Commands.Dcm2pnmArgsUnambiguous | src/index.ts:149-158 | with quote-free paths, a `dcmj2pnm` argument string determines the input and output paths |
| Commands.QuotedBetween | src/index.ts:149-158 | between the same prefix and the same suffix, a quoted quote-free text is determined by the whole string |
| Commands.InvalidFormatRejects | src/index.ts:160-173 | an unknown format rejects with `invalid format`, runs no program and still sweeps |
| Commands.ConvertRunsOnce | src/index.ts:163-168 | a supported format runs `dcmj2pnm` once, with the argument string, then sweeps |
| Commands.CompressDatasetFailure | src/index.ts:100-106 | an unwritable dataset rejects without running `dcmcjpls` |
| Mosaic.NullFalsy | src/index.ts:206-212 | the array keeps its length; falsy entries become `null`, the others stay |
| Mosaic.TruthyIndices | src/index.ts:213-225 | lists converted slots only, below the bound |
| Mosaic.TruthyIndicesExact | src/index.ts:213-225 | every converted slot below the bound is listed, in strictly increasing order, so each once |
| Mosaic.Conversions | src/index.ts:213-225 | the map has one entry per slot: none for an empty slot, the slot's `dcm2pnm` run otherwise |
| Mosaic.MosaicRun | src/index.ts:177-261 | definition of the whole call on values: merge, layout check, nulling, conversions, then `Finish`; stated by `MosaicRunOutcome` and met by the method `Mosaic` |
| Mosaic.MosaicRunOutcome | src/index.ts:177-261 | throws iff the merge fails; a layout too small rejects with no call at all; resolves iff the layout fits and both `montage` and `convert` succeed, with `destFile` |
| Mosaic.Finish | src/index.ts:225-258 | once the conversions settle, the outcome is that of `montage` then `convert`, resolving with `destFile` |
| Mosaic.Mosaic | src/index.ts:177-261 | the method's run is `MosaicRun` of the caller's array; the array is nulled in place iff the layout fits, else untouched |
| Mosaic.NullEmptySlots | src/index.ts:206-212 | the `while` loop leaves the array equal to its nulled contents |
| Mosaic.StartConversions | src/index.ts:213-225 | the `map` starts the conversions in slot order and pushes `null:` for each empty slot |
| Mosaic.AwaitConversions | src/index.ts:219-225 | as each conversion settles in the given order, it sweeps and then pushes its token |
| Mosaic.Compose | src/index.ts:225-258 | runs `montage` with the pieces, and `convert` only when `montage` succeeded |
| Mosaic.Tokens | src/index.ts:213-225 | definition of `JPGFiles` after the conversions settle: a `null:` per empty slot, then one token per converted slot in completion order, its quoted file or `null:` when it failed; stated by `TokensPerSlot` |
| Mosaic.MontagePieces | src/index.ts:226-237 | definition of `pmArr`: files, optional tile, geometry, background, optional trim, output; stated by `TrimIff`, `TileIff`, `WidthIff`, `HeightIff` |
| Mosaic.ConvertPieces | src/index.ts:246-252 | definition of the `convert` argument terms: the file, the shave, the optional border and rotation, the output; stated by `BorderIff` and `RotateIff` |
| Mosaic.MontagePieceList | src/index.ts:226-237 | the pushes build exactly the `pmArr` pieces |
| Mosaic.NullingKeepsSlots | src/index.ts:206-212 | nulling keeps the length and the truthy slots, turns the others into `null`, and is idempotent |
| Mosaic.AwaitedConversions | src/index.ts:213-225 | the conversions awaited are exactly the truthy slots, in slot order |
| Mosaic.TruthyIndicesNulled | src/index.ts:206-215 | nulling does not change which slots are converted |
| Mosaic.CompletedTokensAppend | src/index.ts:219-224 | tokens collected over two stretches of settling are the two lists joined |
| Mosaic.CompletedTokensPermutation | src/index.ts:219-224 | any two orders of the same completions collect the same tokens, up to order |
| Mosaic.TokensPerSlot | src/index.ts:213-226 | `JPGFiles` has one token per slot, and is a permutation of the slot-order list in which a slot has its quoted file iff it is truthy and its conversion resolved, and `null:` otherwise |
| Mosaic.InnerConversionsSettle | src/index.ts:219 | the conversions inside a mosaic never throw, because the options they re-merge are already merged |
| Mosaic.LayoutRejects | src/index.ts:202-205 | when `rows * columns` is less than the array length, the mosaic rejects and makes no call |
| Mosaic.StartCallsNoImagick | src/index.ts:213-225 | the conversions start no ImageMagick program |
| Mosaic.ConvertAfterMontage | src/index.ts:239-258 | `convert` is called only after `montage` succeeded, as the next and last call, on `destFile` |
| Mosaic.TooSmall | src/index.ts:202 | definition of the layout test `rows * columns < dcmArray.length`; stated by `LayoutRejects` |
| Mosaic.CellSize | src/index.ts:198-199 | definition of `cellWidth` and `cellHeight`: `null` without a film size, else the film less two margins plus two paddings, over the count; stated by `CellsFillFilm` and `NoFilmNoCell` |
| Mosaic.Layout | src/index.ts:197-199 | definition of `boxPadding`, `cellWidth` and `cellHeight` from the options; stated by `PaddingIsHalfSpacing` |
| Mosaic.PaddingIsHalfSpacing | src/index.ts:197 | the padding is half the box spacing |
| Mosaic.CellsFillFilm | src/index.ts:198-199 | `count` cells fill the film less two margins plus two paddings; the size shown is the cell less two paddings |
| Mosaic.NoFilmNoCell | src/index.ts:198-199 | a falsy film size leaves the cell size out of `-geometry` |
| Mosaic.TokensShaped | src/index.ts:215-223 | every token is `null:` or a quoted path |
| Mosaic.TrimIff | src/index.ts:236 | `-trim` is among the `montage` pieces iff `trim` is truthy |
| Mosaic.TileIff | src/index.ts:227-229 | a `-tile` piece is among the `montage` pieces iff `columns` is truthy |
| Mosaic.WidthIff | src/index.ts:231 | the width is among the `montage` pieces when the cell width is shown, and no width piece is there otherwise |
| Mosaic.HeightIff | src/index.ts:233 | the height is among the `montage` pieces when the cell height is shown, and no number's text is there otherwise |
| Mosaic.BorderIff | src/index.ts:250 | a `-bordercolor` piece is among the `convert` pieces iff `pageMargin` is truthy |
| Mosaic.RotateIff | src/index.ts:251 | a `-rotate` piece is among the `convert` pieces iff `pageRotation` is truthy |
| TempFiles.Expired | src/index.ts:69-71 | definition of the deletion rule: the `stat` succeeded and the clock reading is past the modification time plus ten minutes; stated by `TenMinutesIsKept` and `StatErrorIsKept` |
| TempFiles.Doomed | src/index.ts:61-76 | every deleted name belongs to an entry whose stat succeeded and which is more than ten minutes old |
| TempFiles.ClearTemporaryFiles | src/index.ts:61-76 | the loop deletes exactly the expired entries, in listing order |
| TempFiles.ExpiredAreDoomed | src/index.ts:68-72 | every expired entry is deleted |
| TempFiles.DoomedAppend | src/index.ts:66-74 | each entry is decided on its own: sweeping a listing in two parts deletes what sweeping it whole does |
| TempFiles.TenMinutesIsKept | src/index.ts:70-71 | an entry exactly ten minutes old is kept; one millisecond older, it is deleted |
| TempFiles.StatErrorIsKept | src/index.ts:69 | an entry whose `stat` fails is never deleted |

## Left out

- Running processes, the filesystem and the clock. A program's exit report, a dataset write's success, the scratch path each temp file gets, the listing with each `stat` report, and the current time are all parameters.
- `tempPath` naming (time plus `Math.random`), `path.join`, and creating the `.temp` directory.
- How `isDataset` and `Dataset.toFile` work inside. A source is a path, a dataset that can or cannot be written, `null`, or `undefined`.
- The order in which promises settle. The completion order of a mosaic's conversions is a permutation parameter. The sweeps of the inner conversions appear in the trace after all the calls the conversions start.
- `Promise.all` rejecting early. All inner conversions catch their errors, so it can only resolve.
- The inner conversions of a mosaic throwing. `InnerConversionsSettle` shows that this cannot happen.
- Floating point. Numbers are reals with NaN and the infinities, without IEEE rounding or signed zero.
- `parseFloat` and number-to-text. Both are the `NumberFormat` parameter. A string dpi is coerced through its `coerce` part.
- Non-ASCII case mapping in `toUpperCase`.
- The effect of `fs.unlinkSync`. The sweep returns the names it deletes.
- The order of the sweep's deletions, which follows the asynchronous `stat` callbacks. Since each entry is decided on its own (`DoomedAppend`), the set of deletions does not depend on it.
- The sweep at module load (src/index.ts:84). It is the same operation.
- The TypeScript types and interfaces, and the compiled `dist/` files.
