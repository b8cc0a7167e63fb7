# Scam Guard scorer and photo scanner, in Dafny

This project models the client-side core of the Scam Guard app and proves
properties of the model. The core has two parts.

- **The rule-based scorer** `analyzeText` (`src/lib/scamDetector.js`).
  - It rejects empty input with a fixed zero-risk answer.
  - It normalises the text: every whitespace run becomes one space, then the ends are trimmed.
  - It walks a fixed, ordered table of seven weighted categories of regular expressions (62 patterns in all). For every pattern that matches, it adds the category's weight and records a reason.
  - It scales the raw sum to a 0..100 score against a ceiling of 60.
  - It picks a status tier (high from 60, medium from 30, low below that) and a recommendation.
- **The photo scanner component** (`src/components/PhotoScanner.jsx`).
  - `validateFile` checks an upload: missing file, unsupported MIME type, or larger than 10 MB.
  - `getScoreColor` chooses the gauge colours.
  - The guard on recognised text: it is trimmed, and anything shorter than three UTF-16 code units is rejected.
  - The component's state fields and the handlers that update them: `handleFile`, `handleScan` and `handleReset`.

Layout:

- `js_string.dfy`, module `JsString`: the JavaScript string primitives the core relies on.
  - The `\s` character class, which is the ECMAScript WhiteSpace and LineTerminator set.
  - `trim`, `replace(/\s+/g, ' ')` and `length` in UTF-16 code units.
  - Whitespace-run insensitivity and idempotence of the normalisation.
- `scam_detector.dfy`, module `ScamDetector`:
  - the rule table and the thresholds, transcribed from the source;
  - the specification functions, `Analysis` and the loop-prefix functions;
  - the imperative `AnalyzeText`, whose nested loops are proved against them.
- `scam_detector_properties.dfy`, module `ScamDetectorProperties`:
  - the loops against an independent reference, which flattens the table into (category, pattern) entries and keeps the ones that match;
  - the weight bookkeeping, the guard, whitespace insensitivity, monotonicity and tier consistency;
  - the shape of the shipped table, and worked scenarios.
- `photo_scanner.dfy`, module `PhotoScanner`:
  - validation, colours and the recognised-text guard;
  - the `Scanner` class, whose fields are the component's `useState` values and whose methods are its handlers. Each method's `ensures` gives the complete new state as an update of the `ScannerState` snapshot.

Modelling choices:

- **Regular expressions are abstract.** A `Matcher` is a parameter standing for `pattern.test(text)`, and each `Pattern` keeps its regular-expression source and its label.
  - `LiteralMatcher` is one concrete matcher. It reads a pattern as literal text. That agrees with the real expression only for patterns without metacharacters, such as `hurry` or `moneygram`, and only on lower-case text, because every pattern carries the `i` flag.
- **Renamed fields.** The label field of a pattern and of a reason is called `flag`, and the label of a threshold is called `title`, because `label` is a reserved word in Dafny.
- **The score formula is integer arithmetic.** `Math.min(100, Math.round(raw / 60 * 100))` is modelled as `min(100, (5 * raw + 1) / 3)`.
  - The two agree for every raw score. `100 * raw / 60` is a multiple of 1/3, so its fractional part is never one half, and floating-point error cannot move it across a rounding boundary.
  - `Scale`'s contract states the rounding directly.
- **The rule table is a parameter.** `AnalyzeText` runs `AnalyzeWith` on the shipped table, and most properties are proved for any table.
  - The nested match loop is its own method, `MatchRules`, so that its invariants are checked apart from the facts about normalisation.
- **A worked example: "Guaranteed 100% profit, act now, limited time offer!" is medium risk.**
  - `guarantee[ds]?\s*(return|profit|income|earning)` does not match "Guaranteed 100% profit", because "100%" stands between the two words;
  - only `act\s*now`, `limited\s*time` and `100%\s*(safe|secure|guaranteed|profit)` match, for 8 + 8 + 10 = 26 raw points, which scale to 43.

## Model

| member | source | states |
|---|---|---|
| JsString.IsSpace | src/lib/scamDetector.js:139-149 | the whitespace set of `\s` and `trim`: all of it lies in the Basic Multilingual Plane, and among ASCII characters it is exactly space, tab, line feed, vertical tab, form feed and carriage return |
| JsString.TrimStart | src/lib/scamDetector.js:139 | drops a leading run of whitespace: the result is a suffix of the input, what was dropped is all whitespace, and the result does not start with whitespace |
| JsString.TrimEnd | src/lib/scamDetector.js:139 | drops a trailing run of whitespace: the result is a prefix of the input, what was dropped is all whitespace, and the result does not end with whitespace |
| JsString.Trim | src/lib/scamDetector.js:139 | `trim` leaves neither end as whitespace, and gives the empty string exactly when the input is all whitespace |
| JsString.TrimSlice | src/lib/scamDetector.js:139 | `trim` removes a leading and a trailing whitespace run and nothing else: the result is the slice of the input between them |
| JsString.TrimKeepsVisible | src/components/PhotoScanner.jsx:209 | trimming removes only whitespace: the non-whitespace characters survive in order |
| JsString.TrimFixed | src/components/PhotoScanner.jsx:209 | trimming already-trimmed text changes nothing |
| JsString.Collapse | src/lib/scamDetector.js:149 | `replace(/\s+/g, ' ')` leaves only single plain spaces between non-whitespace characters, keeps every non-whitespace character in order, and is empty exactly when the input is |
| JsString.Normalize | src/lib/scamDetector.js:149 | the normal form is collapsed and trimmed, keeps the non-whitespace characters, and is empty exactly when the input is all whitespace |
| JsString.CollapseRun | src/lib/scamDetector.js:149 | replacing one non-empty whitespace run by another does not change the collapsed text |
| JsString.NormalizeRun | src/lib/scamDetector.js:149 | inputs that differ only in the width of a whitespace run normalise to the same text |
| JsString.CollapseFixed | src/lib/scamDetector.js:149 | collapsing already-collapsed text changes nothing |
| JsString.NormalizeIdempotent | src/lib/scamDetector.js:149 | normalising twice equals normalising once |
| JsString.NormalizeFixed | src/lib/scamDetector.js:149 | text that is already collapsed and trimmed is its own normal form |
| JsString.NormalizeAppend | src/lib/scamDetector.js:149 | the normal form of a text is the start of the normal form of any extension of it |
| JsString.Utf16Length | src/components/PhotoScanner.jsx:211 | `length` lies between the number of characters and twice that number, and is zero only for the empty string |
| JsString.Utf16LengthConcat | src/components/PhotoScanner.jsx:211 | the length of a concatenation is the sum of the lengths |
| JsString.Utf16LengthChar | src/components/PhotoScanner.jsx:211 | one character is one code unit, or two when it lies above U+FFFF |
| ScamDetector.Scale | src/lib/scamDetector.js:165-166 | the score is `round(raw * 100 / 60)` capped at 100: within a half of the exact ratio below the cap, and equal to 100 exactly when raw ≥ 60 |
| ScamDetector.StatusTier | src/lib/scamDetector.js:170-179 | exactly one tier is chosen: high for scores ≥ 60, medium for 30..59, low below 30 |
| ScamDetector.StatusThreshold | src/lib/scamDetector.js:124-128 | 60 and 30 are exactly where the high and medium tiers begin, and the low threshold's 0 lies in the low tier |
| ScamDetector.NoText | src/lib/scamDetector.js:139 | the guard fires exactly for a missing value, a non-string, or an all-whitespace string |
| ScamDetector.Recommendation | src/lib/scamDetector.js:182-192 | the recommendation's own 60/30 thresholds pick the advice of the score's status tier |
| ScamDetector.MatchRules | src/lib/scamDetector.js:150-160 | the nested loops end with the raw score and reasons of the whole table, in table order, one step per pattern |
| ScamDetector.AnalyzeWith | src/lib/scamDetector.js:138-195 | the result of the guard, normalisation, match loop, scaling, tier and recommendation equals `Analysis` over the given table |
| ScamDetector.AnalyzeText | src/lib/scamDetector.js:15-128 | `analyzeText` returns `Analysis` over the shipped rule table and thresholds |
| ScamDetectorProperties.MatchReference | src/lib/scamDetector.js:153-160 | the reasons are exactly the matching entries of the flattened table, in category order and then in pattern order; the raw score is the sum of their weights |
| ScamDetectorProperties.ReasonMembership | src/lib/scamDetector.js:153-158 | a reason is reported if and only if some pattern of the table matches and the reason names its category and label |
| ScamDetectorProperties.RawIsReasonWeights | src/lib/scamDetector.js:155-158 | with distinct category names, the raw score is the sum over the reasons of their categories' weights, counted per matching pattern |
| ScamDetectorProperties.TableRawBound | src/lib/scamDetector.js:153-160 | the raw score never exceeds the table's capacity, the sum of weight times pattern count |
| ScamDetectorProperties.TableZeroIffEmpty | src/lib/scamDetector.js:153-160 | with positive weights, the raw score is zero exactly when no reason is reported |
| ScamDetectorProperties.TableRawMonotone | src/lib/scamDetector.js:153-160 | if every pattern matching one text matches another, the other's raw score is at least as large |
| ScamDetectorProperties.ScaleMonotone | src/lib/scamDetector.js:166 | scaling preserves order |
| ScamDetectorProperties.AnalysisMonotone | src/lib/scamDetector.js:149-166 | when the patterns matching one input's normal form all match another's, and the other input passes the guard, the other's score is at least as large; a guarded first input scores 0 |
| ScamDetectorProperties.AppendNeverLowers | src/lib/scamDetector.js:139-166 | for a matcher that searches anywhere in the text, appending text never lowers the score |
| ScamDetectorProperties.LiteralExtensible | src/lib/scamDetector.js:155 | the literal matcher searches anywhere: a match survives appended text |
| ScamDetectorProperties.GuardResult | src/lib/scamDetector.js:139-147 | a guarded input gets score 0, the low-risk label and colour, no reasons and "No text was provided for analysis.", whatever the table and matcher are; only guarded inputs get that recommendation |
| ScamDetectorProperties.TierConsistency | src/lib/scamDetector.js:166-192 | the score lies in 0..100; the status and its colour are those of the score's single tier, and for text past the guard so is the recommendation |
| ScamDetectorProperties.TierColors | src/lib/scamDetector.js:124-128 | the tier colours are red, yellow and green |
| ScamDetectorProperties.NoHits | src/lib/scamDetector.js:153-194 | text matching no pattern scores 0, is low risk with no reasons, and gets the low-risk advice |
| ScamDetectorProperties.WhitespaceRun | src/lib/scamDetector.js:139-160 | inputs differing only in the width of a whitespace run get identical results, guard included |
| ScamDetectorProperties.NormalizedInput | src/lib/scamDetector.js:149 | scoring already-normalised text gives the same result as scoring the original |
| ScamDetectorProperties.PaymentScenario | src/lib/scamDetector.js:81-82 | normalised text matching only `wire\s*transfer` and `gift\s*card` gives raw 18, score 30, medium status and advice, and those two reasons in order |
| ScamDetectorProperties.GuaranteedProfitScenario | src/lib/scamDetector.js:20-37 | matching only `act\s*now`, `limited\s*time` and `100%\s*(…)` gives raw 26, score 43, medium status and advice, and those three reasons in order |
| ScamDetectorProperties.TableShape | src/lib/scamDetector.js:15-120 | seven categories with weights 8, 10, 9, 10, 9, 7, 4 and 10, 10, 9, 8, 10, 9, 6 patterns; every weight is positive |
| ScamDetectorProperties.TableNames | src/lib/scamDetector.js:17-108 | the seven category names are distinct |
| ScamDetectorProperties.TableCapacity | src/lib/scamDetector.js:15-120 | at most 518 raw points can be earned, far past the 60 that saturate the score |
| PhotoScanner.ValidateFile | src/components/PhotoScanner.jsx:9-14 | no error exactly when a file is present, its type is one of the five accepted types and its size is at most 10485760 bytes; any error is one of the three messages |
| PhotoScanner.MissingFileFirst | src/components/PhotoScanner.jsx:10 | a missing file is reported as "No file selected." |
| PhotoScanner.TypeBeforeSize | src/components/PhotoScanner.jsx:7-11 | an unaccepted type is reported whatever the size |
| PhotoScanner.SizeBoundary | src/components/PhotoScanner.jsx:11-13 | a file of an accepted type is accepted up to 10485760 bytes and gets the size error for any size above |
| PhotoScanner.GetScoreColor | src/components/PhotoScanner.jsx:16-20 | the gauge colour bands agree with the scorer's status bands: every score is painted in the palette entry of its status colour |
| PhotoScanner.AcceptOcrText | src/components/PhotoScanner.jsx:209-211 | text is accepted exactly when it is present and its trimmed form is at least three UTF-16 code units long; the accepted text is the trimmed form |
| PhotoScanner.AcceptedText | src/components/PhotoScanner.jsx:209-211 | accepted text is trimmed, keeps every non-whitespace character, and passes the scorer's guard |
| PhotoScanner.AcceptStable | src/components/PhotoScanner.jsx:209-211 | text that passed the guard passes it again unchanged |
| PhotoScanner.AcceptedTextIsScored | src/components/PhotoScanner.jsx:211-224 | text that reaches `analyzeText` never gets the no-text answer |
| PhotoScanner.EmptyTextRejected | src/components/PhotoScanner.jsx:211 | the empty text is never accepted, so scoring cannot follow a rejected recognition, which leaves the text on screen empty |
| PhotoScanner.TwoCharactersRejected | src/components/PhotoScanner.jsx:211 | two visible characters from the Basic Multilingual Plane are too few |
| PhotoScanner.SurrogatePairCountsTwice | src/components/PhotoScanner.jsx:211 | a character outside the Basic Multilingual Plane plus one more is enough, since it counts as two code units |
| PhotoScanner.Scanner.constructor | src/components/PhotoScanner.jsx:157-165 | every state field starts at its `useState` initial value |
| PhotoScanner.Scanner.HandleFile | src/components/PhotoScanner.jsx:167-177 | a rejected upload sets only the error; an accepted one clears the error, text and result and stores the file; nothing else changes |
| PhotoScanner.Scanner.OnPreviewLoaded | src/components/PhotoScanner.jsx:179-181 | the reader's data URL becomes the preview and nothing else changes |
| PhotoScanner.Scanner.BeginScan | src/components/PhotoScanner.jsx:185-192 | without a file nothing changes; otherwise processing starts on a stored, acceptable file, with error, text and result cleared, progress at 0 and the initializing status |
| PhotoScanner.Scanner.OcrRecognized | src/components/PhotoScanner.jsx:209-219 | too little text sets the no-readable-text error and stops processing; otherwise the trimmed text is shown with the analyzing status at 100% |
| PhotoScanner.Scanner.ShowOcrOutcome | src/components/PhotoScanner.jsx:211-219 | for a rejected text, the no-readable-text error and the end of processing; for an accepted one, the text shown with the analyzing status at 100% |
| PhotoScanner.Scanner.Deliver | src/components/PhotoScanner.jsx:224-231 | only the text on screen, which the guard accepted from the recognised text, is scored; the result becomes `analyzeText` of it, which is never the no-text answer, and processing stops |
| PhotoScanner.Scanner.HandleScan | src/components/PhotoScanner.jsx:184-232 | the whole final state for each outcome: no file changes nothing; a recognition failure or unreadable text leaves its error with text and result cleared; accepted text is shown at 100% with the analyzing status and its `analyzeText` result; processing always ends stopped |
| PhotoScanner.Scanner.StoreAnalysis | src/components/PhotoScanner.jsx:224-231 | the result becomes `analyzeText` of the text and processing stops; nothing else changes |
| PhotoScanner.Scanner.OcrFailed | src/components/PhotoScanner.jsx:226-231 | a failed recognition sets the failure message and stops processing |
| PhotoScanner.Scanner.HandleReset | src/components/PhotoScanner.jsx:234-242 | file, preview, text, result, error, progress and status return to their initial values; the processing and drag flags are untouched |

## Left out

- Regular-expression semantics, including the `i` flag and case folding. Patterns are matched by an abstract `Matcher`, and `LiteralMatcher` agrees with a pattern only when the pattern has no metacharacters and the text is lower-case.
- Tesseract recognition and its progress logger (`src/components/PhotoScanner.jsx:195-207`). The recognised text arrives as an argument of `OcrRecognized`, and a failure is the call `OcrFailed()`; `HandleScan` takes either as one optional argument. The status strings and the rounded progress percentages the logger sets while recognition runs are not modelled.
- `FileReader` is asynchronous. The preview arrives through `OnPreviewLoaded`.
- The 400 ms `setTimeout` and the `async`/`await` ordering of `handleScan`. `HandleScan` runs the steps `BeginScan`, `OcrRecognized` then `Deliver`, or `BeginScan` then `OcrFailed`, with no other handler in between. Interleaving other handlers between the steps, which the browser allows at each `await`, is not modelled, and nothing is claimed about it.
- The `catch` of `handleScan` also catches an exception thrown by `analyzeText`. For a string argument the model's `analyzeText` cannot fail, so only a recognition failure reaches `OcrFailed`.
- `console.error` in the `catch` block, which is output only.
- React rendering, the sub-components and the drag-and-drop state. `isDragging` is a field that no modelled handler changes.
- The floating-point gauge geometry (`Math.PI`) and the progress bar's `Math.round`.
- `src/app.jsx` and `api/analyze.js` are not part of this model. They are a separate LLM-based path that goes through the network.
- Lone UTF-16 surrogates. Dafny strings hold Unicode scalar values, so `Utf16Length` counts a character above U+FFFF as two units, as JavaScript does, but it cannot represent an unpaired surrogate.
- PhotoScanner.Scanner.Valid: the invariant covers the stored file and the progress range, not the shown text. The facts about shown text are stated by `OcrRecognized` and `AcceptedText` instead.
- AppendNeverLowers: it assumes the matcher searches anywhere in the text. Nothing proves that the table's regular expressions are such matchers, because regular expressions are abstract here. None of them is anchored.
