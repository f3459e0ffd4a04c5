# MRZScanner in Dafny

A model of the per-frame core of the MRZScanner library, with proofs. MRZScanner reads the Machine Readable Zone (MRZ) of passports and ID cards from camera frames. The model covers:

- **Line validator.** The recognizer returns a list of up to ten ranked candidate strings for each detected text line. For each format of an MRZ format catalog, tried in order, the validator greedily collects one whitespace-free line per observation that has that format's line length. It keeps the result only when it holds exactly the format's number of lines (`validator.dfy`).
- **Bounding-rectangle classifier.** It splits the frame's rectangles into those that back a selected line ("valid") and all the others ("invalid") (`scanner.dfy`).
- **The two scanner pipelines.** Single-shot mode runs recognizer, validator and parser. Live mode runs recognizer, validator, classifier, parser and frequency tracker. The tracker is an object held by the scanner, so its state lasts across frames (`scanner.dfy`).
- **The result values** `ScanningResult`, `ScanningResultError` and `ScanedBoundingRects`, with `convertedTo` (`scanning_result.dfy`).
- **From the example apps:** the device-orientation guard, the text-orientation and capture-orientation tables, and the sizing and centring of the region of interest (`view_controller.dfy`). Also the correction of rectangle origins between centre and top-left anchoring, and the view model's `scan` (`view_model.dfy`).

Two parts come from other packages and stay abstract: the recognizer (Vision) and the MRZ parser with its format catalog. The recognizer is a function field of type `(Image, Configuration) -> Result<seq<Observation>, EngineError>`. The parser is `seq<string> -> Option<Record>`. The catalog is a `seq<Format>` of `(linesCount, lineLength)` pairs. `StandardCatalog` (TD1, TD2, TD3) appears only in the worked examples.

The source of `MRZFrequencyTracker` is not part of this model. It is modelled as an object whose verdict `rule(frequency, history)` depends only on its configured frequency and on the records it has been shown. `makeDefault` creates it with frequency 2.

Geometry is over exact `real`s. `Rect` follows `CGRect`: `MinX`/`Width` read a rectangle with a negative size as if it were standardized.

Three details of the selection, as the code does them:

- The validator takes the first candidate in rank order whose stripped length fits (`MRZValidator.swift:18`). It does not look at the top candidate only.
- The accumulator is not cleared after a format succeeds. A later format that needs more lines is tried on top of it (`MRZValidator.swift:15`). `FirstFillingFormatWins` shows that for a catalog whose line counts do not increase, the result is still the first format whose pass fills up.
- A failed validation gives an empty list, not a missing value. The parser is then called on the empty list.

## Model

| member | source | states |
|---|---|---|
| `Validator.StripWhitespace` | Sources/MRZScanner/MRZValidator.swift:17 | the whitespace-free form of a candidate is never longer than the candidate |
| `Validator.StripWhitespaceFilters` | Sources/MRZScanner/MRZValidator.swift:17 | stripping is the character filter: a whitespace character is dropped, any other kept, and stripping a concatenation concatenates the stripped parts, which fixes the result's content, order and length |
| `Validator.WhitespaceStripped` | Sources/MRZScanner/MRZValidator.swift:17 | the stripped candidate contains a character iff the candidate has it and it is not whitespace; it is never longer, and a whitespace-free candidate is kept unchanged |
| `Validator.FirstFitting` | Sources/MRZScanner/MRZValidator.swift:17-18 | a pick always has the requested length |
| `Validator.FirstFittingIsFirstInRank` | Sources/MRZScanner/MRZValidator.swift:17-18 | the pick for an observation is a stripped candidate of the requested length, and no candidate ranked before it has that length; there is no pick exactly when no candidate fits |
| `Validator.SingleCandidatePick` | Sources/MRZScanner/MRZValidator.swift:17-18 | an observation whose only candidate is whitespace-free picks that candidate for its own length and nothing for any other |
| `Validator.MatchesPicks` | Sources/MRZScanner/MRZValidator.swift:16-20 | what a pass can take from the first `n` observations: at most one line per observation, indices strictly increasing and below `n`, each line the pick of its observation |
| `Validator.MatchesComplete` | Sources/MRZScanner/MRZValidator.swift:16-20 | every observation among the first `n` that has a pick contributes that pick, with its own index |
| `Validator.PassStep` | Sources/MRZScanner/MRZValidator.swift:16-19 | one observation of a pass: the lines taken so far grow by this observation's pick exactly when they are still short of the format's count and the observation has a pick |
| `Validator.TopUp` | Sources/MRZScanner/MRZValidator.swift:16-21 | the inner loop leaves the accumulator followed by the first fitting observations, in detection order, as many as the format still needs |
| `Validator.GetValidatedResults` | Sources/MRZScanner/MRZValidator.swift:12-29 | the nested-loop selection returns exactly `Validated(catalog, lines)`, the fold of the per-format passes |
| `Validator.AttemptOutcome` | Sources/MRZScanner/MRZValidator.swift:15-25 | a format is skipped when the accumulator already holds its line count. Otherwise the pass empties the accumulator, or tops it up to exactly `linesCount` with the first fitting observations in detection order. It fills iff enough observations fit |
| `Validator.PassIndicesIncrease` | Sources/MRZScanner/MRZValidator.swift:16-20 | the lines one pass appends come from distinct observations in strictly increasing, in-range detection order |
| `Validator.ValidatedLinesFit` | Sources/MRZScanner/MRZValidator.swift:17-19 | every selected line points at an observation in range, and is that observation's first fitting stripped candidate for the line length of some catalogued format |
| `Validator.ValidatedSize` | Sources/MRZScanner/MRZValidator.swift:15-28 | the output is empty, or has exactly the line count of the last format that was attempted, every later format having been skipped because it needs no more lines than the output holds |
| `Validator.NoneFillsMeansEmpty` | Sources/MRZScanner/MRZValidator.swift:15-28 | if no format finds enough fitting observations, nothing is selected (partial blocks never survive) |
| `Validator.EmptyInputSelectsNothing` | Sources/MRZScanner/MRZValidator.swift:13-28 | no observations give an empty result, for every catalog |
| `Validator.FirstFillingFormatWins` | Sources/MRZScanner/MRZValidator.swift:15-28 | with a non-increasing catalog, the result is the first `linesCount` fitting lines of the first format that fills, and later formats are skipped |
| `Validator.StandardCatalogNonIncreasing` | Sources/MRZScanner/MRZValidator.swift:15 | the TD1/TD2/TD3 example catalog has non-increasing line counts |
| `Validator.TwoPassportLinesSelected` | Sources/MRZScanner/MRZValidator.swift:15-28 | two 44-character observations over the MRZ character set (A-Z, 0-9, `<`) are selected as a TD3 block with indices 0 and 1 |
| `Validator.SpecimenPassportSelected` | Sources/MRZScanner/MRZValidator.swift:15-28 | the two lines of the ICAO specimen passport are selected, in order, with indices 0 and 1 |
| `Validator.MixedLengthsSelectNothing` | Sources/MRZScanner/MRZValidator.swift:15-28 | one 44-character and one 30-character observation select nothing |
| `Scanner.PositionsSelect` | Sources/MRZScanner/MRZScanner.swift:118-124 | the positions routed to a group are exactly of that group's kind (a validated index for `valid`, any other for `invalid`), each once, in increasing order |
| `Scanner.PositionsComplete` | Sources/MRZScanner/MRZScanner.swift:118-124 | no position of a group's kind is left out of that group |
| `Scanner.GatherStep` | Sources/MRZScanner/MRZScanner.swift:119-123 | one step of the walk: a group gains the rectangle at the current offset exactly when the offset is of that group's kind, and is otherwise unchanged |
| `Scanner.PositionsSplit` | Sources/MRZScanner/MRZScanner.swift:118-124 | the two groups of positions together have as many entries as there are rectangles |
| `Scanner.Classified` | Sources/MRZScanner/MRZScanner.swift:113-126 | the classification of a frame has as many rectangles, valid and invalid together, as the frame has observations |
| `Scanner.ClassificationPartition` | Sources/MRZScanner/MRZScanner.swift:113-126 | `valid` and `invalid` together hold every rectangle once. `valid` has one entry per distinct validated index in range. With no validated lines, `valid` is empty and `invalid` is every rectangle in detection order |
| `Scanner.GetScannedBoundingRects` | Sources/MRZScanner/MRZScanner.swift:109-127 | the append loop produces exactly the classification by validated index, order kept in each group, and the sizes add up |
| `Scanner.FrequencyTracker.constructor` | Sources/MRZScanner/MRZScanner.swift:69 | a new tracker has the given frequency and has seen no record |
| `Scanner.FrequencyTracker.IsResultStable` | Sources/MRZScanner/MRZScanner.swift:100 | the record is added to the tracker's history and the verdict is the rule applied to the new history |
| `Scanner.MRZScanner.MakeDefault` | Sources/MRZScanner/MRZScanner.swift:64-71 | the scanner owns a fresh tracker of frequency 2 that has seen nothing |
| `Scanner.MRZScanner.ScanSingle` | Sources/MRZScanner/MRZScanner.swift:72-87 | accurate recognition. A recognizer error is passed on. Otherwise the parser gets exactly the validated lines' strings, in order: success iff it parses, with its record, else an error with no rectangles. The tracker is never touched |
| `Scanner.MRZScanner.LiveStepContract` | Sources/MRZScanner/MRZScanner.swift:88-104 | fast recognition. The tracker sees the record only when parsing succeeds. Success iff it parses and the tracker calls it stable, carrying the record and this frame's classification. Every other non-recognizer outcome is an error with that classification |
| `Scanner.MRZScanner.ScanLive` | Sources/MRZScanner/MRZScanner.swift:88-105 | the closure's outcome and the tracker's new history are exactly those of `LiveStep` from the old history |
| `ScanningResults.ConvertAll` | Sources/MRZScanner/ScanningResult.swift:33-34 | element `k` of the output is the conversion of element `k` of the input; the length is kept |
| `ScanningResults.ScannedBoundingRects.ConvertedTo` | Sources/MRZScanner/ScanningResult.swift:31-36 | both groups keep their lengths, and each rectangle is converted in place within its own group |
| `ExampleViewController.CaptureOrientation` | Example/Example/ViewController.swift:392-402 | there is a capture orientation exactly when the device is in portrait or landscape |
| `ExampleViewController.CaptureOrientationBijective` | Example/Example/ViewController.swift:392-402 | the mapping is a bijection between the four supported device orientations and the four capture orientations: portrait cases kept, landscape cases swapped |
| `ExampleViewController.TextOrientationFor` | Example/Example/ViewController.swift:201-214 | every hint is unmirrored, and only landscape-left (the orientation the buffers arrive in) reads the buffer unrotated (`up`) |
| `ExampleViewController.TextOrientationTable` | Example/Example/ViewController.swift:201-214 | every orientation gets an unmirrored hint; flat and unknown fall back to `right`; the four supported orientations get four different hints |
| `ExampleViewController.BufferAspectRatio` | Example/Example/ViewController.swift:235-241 | either session preset gives an aspect ratio of exactly 16/9 |
| `ExampleViewController.RoiSize` | Example/Example/ViewController.swift:154-161 | outside portrait and unknown the size is the desired (0.6, 0.15), with the aspect ratio possibly unset; in portrait or unknown the height times the aspect ratio is the desired 0.15 (the same height in buffer pixels) and the width is 0.6 times the aspect ratio (the same width in buffer pixels) capped at 0.8, i.e. the smaller of the two |
| `ExampleViewController.Centered` | Example/Example/ViewController.swift:163-164 | the region keeps its size and its centre is (0.5, 0.5) |
| `ExampleViewController.RoiInsideUnitSquare` | Example/Example/ViewController.swift:150-164 | with the 16:9 buffers, the region of interest is non-empty and lies in the unit square in every orientation |
| `ExampleViewController.PortraitRoi` | Example/Example/ViewController.swift:150-158 | in portrait the width cap applies: size (0.8, 0.084375) at (0.1, 0.4578125) |
| `ExampleViewController.LandscapeRoi` | Example/Example/ViewController.swift:159-164 | in landscape the region is (0.6, 0.15) at (0.2, 0.425), whatever the aspect ratio, set or not |
| `ExampleViewController.ViewController.constructor` | Example/Example/ViewController.swift:19-41 | the initial state: portrait, the whole frame as region, hint `up`, no aspect ratio yet; the orientation invariant holds |
| `ExampleViewController.ViewController.SetupBufferAspectRatio` | Example/Example/ViewController.swift:235-241 | after camera setup the aspect ratio is set to 16/9 |
| `ExampleViewController.ViewController.SetupOrientationAndTransform` | Example/Example/ViewController.swift:191-214 | the text orientation hint is the table's entry for the current orientation |
| `ExampleViewController.ViewController.CalculateRegionOfInterest` | Example/Example/ViewController.swift:145-168 | the region is the centred region of the size the orientation calls for, and the orientation hint is recomputed afterwards. The aspect ratio must be set only in portrait or unknown, the branch that force-unwraps it |
| `ExampleViewController.ViewController.ViewWillTransition` | Example/Example/ViewController.swift:117-136 | the current orientation changes only to a portrait or landscape one, so it stays portrait or landscape. The preview connection turns only when a capture orientation exists. Region and hint are recomputed; the aspect ratio must be set only when the adopted orientation is portrait |
| `ExampleViewModel.CorrectCoordinates` | Example/MRZScannerExample/ViewModel.swift:97-101 | the correction never changes the rectangle's size |
| `ExampleViewModel.CorrectionShift` | Example/MRZScannerExample/ViewModel.swift:98-99 | for non-negative sizes, `center` moves the origin by (+w/2, +h/2) and `leftTop` by (-w/2, -h/2) |
| `ExampleViewModel.CorrectionRoundTrip` | Example/MRZScannerExample/ViewModel.swift:97-101 | for non-negative sizes, `leftTop` after `center` gives back the rectangle, and so does the reverse |
| `ExampleViewModel.CorrectRects` | Example/MRZScannerExample/ViewModel.swift:82-92 | length and order are kept. Each rectangle keeps its size, and its origin is its corrected origin plus the frame's `minX`/`minY` |
| `ExampleViewModel.CorrectBoundingRects` | Example/MRZScannerExample/ViewModel.swift:76-95 | both groups keep their lengths |
| `ExampleViewModel.CenteredRectsPlacement` | Example/MRZScannerExample/ViewModel.swift:82-91 | with `center` and non-negative sizes, each rectangle's new origin is its centre offset by the top-left corner of the MRZ frame |
| `ExampleViewModel.ViewModel.constructor` | Example/MRZScannerExample/ViewModel.swift:23-26 | every published value starts unset |
| `ExampleViewModel.ViewModel.Scan` | Example/MRZScannerExample/ViewModel.swift:40-67 | nothing changes, tracker included, unless both camera and MRZ rects are set. Otherwise one live frame runs with orientation `up`, the MRZ frame as region of interest and minimum text height 0.1. The outcome is published: re-anchored rects and the record on success, the error's rects on a scanning error, nothing on a recognizer error |

`ScanningResult`, `ScanedBoundingRects` and `ScanningResultError` are Dafny datatypes. Their equality is field-wise, as with Swift's synthesized `Equatable`. `ScanningResultError()` defaults its `boundingRects` to `None`, as the Swift initializer does, and the constructor of `ScannedBoundingRects` stores both groups as given.

## Left out

- Text recognition (`TextRecognizer.swift`, the Vision request inside a checked continuation) is not modelled. Its result is a function field of the scanner. The limit of ten candidates per line is not enforced.
- The normalized-to-image rectangle conversion (`CGRect+Vision.swift`, Vision calls with `Int` truncation of the image size) is an abstract `RectConverter`.
- The MRZ parser and the real format catalog belong to the external MRZParser package. `parse` is an abstract function and the catalog is a parameter. No checksum or field grammar is modelled.
- `MRZFrequencyTracker`'s counting rule: its source is not available, so the tracker's verdict is an abstract `rule` over its frequency and its history. Concrete properties of stabilisation, such as "two equal records in a row", are not proved.
- The affine transform chain (`roiToGlobalTransform`, `bottomToTopTransform`, `uiRotationTransform`, `visionToAVFTransform`) uses floating-point trigonometry. `SetupOrientationAndTransform` only recomputes the text orientation hint.
- `updateCutout`, `show`, `draw`, `removeBoxes`, alerts, layout and `viewDidLoad` are UI drawing and layout.
- `setupCamera`, except the choice of aspect ratio, `checkCaptureDeviceAuthorization` and the capture delegate are AVFoundation I/O.
- `startScanning`, and the `Task { @MainActor … }` hops: `Scan` publishes its results at once instead of on the main actor, and the image stream is not modelled.
- The public async forwarding methods and `makeDefaultScanner` only forward their arguments to the closures.
- ExampleViewModel.ViewModel.Scan: the `print` of a recognizer error is console logging and is not modelled; on that path the model changes nothing.
- Concurrency: the live closure's captured tracker is not synchronised in the source. The model is sequential.
- Characters: Swift works on grapheme clusters and the model on Unicode scalars. `String.count` counts clusters, so a line with combining sequences can have a different length in the model. `Character.isWhitespace` tests a cluster's first scalar, so Swift drops a space followed by a combining mark (U+0020 U+0301) as a whole, while `StripWhitespace` drops the space and keeps U+0301.
- Floating point: all geometry is over exact reals, so rounding in `CGFloat` arithmetic is not modelled.
- ExampleViewModel.CorrectionShift: stated for non-negative sizes only. For a negative width, `minX` and `width` are standardized, and the origin moves by a different amount.
- ExampleViewModel.CorrectionRoundTrip: holds only for non-negative sizes, for the same reason.
- ExampleViewController.ViewController.CalculateRegionOfInterest: in portrait or unknown orientation it requires the aspect ratio to be set, which the source's force-unwrap also needs, and non-zero. Division by zero in `Double` gives infinity; over reals it is undefined. The landscape branch requires nothing.
- ExampleViewController.ViewController.ViewWillTransition: whether the preview layer has a connection is a parameter, and only the orientation given to it is kept.
- ExampleViewModel.CorrectBoundingRects: its own contract states only the group lengths. The element-wise placement is in `CorrectRects` and `CenteredRectsPlacement`.
- Package.swift is a build manifest.
