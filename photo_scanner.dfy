/** The photo scanner component: upload validation, the colour bands of the
    score gauge, the guard on recognised text, and the component's state with
    the event handlers that update it. */
module PhotoScanner {
  import opened JsString
  import opened ScamDetector
  import ScamDetectorProperties

  datatype Option<T> = None | Some(value: T)

  /** A browser `File`, as far as validation looks at it: its MIME type and
      its size in bytes. */
  datatype File = File(mime: string, size: nat)

  const ACCEPTED_TYPES: seq<string> := ["image/png", "image/jpeg", "image/webp", "image/bmp", "image/gif"]

  /** 10 MB: the largest upload accepted, in bytes. */
  const MAX_FILE_SIZE: nat := 10 * 1024 * 1024

  const NO_FILE_ERROR := "No file selected."
  const TYPE_ERROR := "Unsupported file type. Please upload a PNG, JPG, WebP, BMP, or GIF image."
  const SIZE_ERROR := "File too large. Maximum size is 10 MB."

  /** An upload the scanner takes. */
  predicate Acceptable(f: File) {
    f.mime in ACCEPTED_TYPES && f.size <= MAX_FILE_SIZE
  }

  /** `validateFile(file)`: the first complaint about an upload, or none
      (`null`) when it can be scanned. A missing file is reported before the
      type is looked at, and the type before the size. */
  function ValidateFile(file: Option<File>): (err: Option<string>)
    ensures err.None? <==> file.Some? && Acceptable(file.value)
    ensures err.Some? ==> err.value == NO_FILE_ERROR || err.value == TYPE_ERROR || err.value == SIZE_ERROR
  {
    if file.None? then Some(NO_FILE_ERROR)
    else if file.value.mime !in ACCEPTED_TYPES then Some(TYPE_ERROR)
    else if file.value.size > MAX_FILE_SIZE then Some(SIZE_ERROR)
    else None
  }

  /** The three Tailwind classes the gauge and the result panel are painted with. */
  datatype ScoreColor = ScoreColor(text: string, border: string, bg: string)

  /** `getScoreColor(score)`: its own bands, at 60 and 30, agree with the
      scorer's status bands, so the gauge is always painted in the palette
      entry of the status colour. */
  function GetScoreColor(score: int): (c: ScoreColor)
    ensures c == Palette(StatusThreshold(StatusTier(score)).color)
  {
    if score >= 60 then ScoreColor("text-red-500", "border-red-500", "bg-red-500")
    else if score >= 30 then ScoreColor("text-yellow-400", "border-yellow-400", "bg-yellow-400")
    else ScoreColor("text-green-400", "border-green-400", "bg-green-400")
  }

  /** The palette entry used for each status colour the scorer reports. */
  function Palette(color: string): ScoreColor {
    if color == "red" then ScoreColor("text-red-500", "border-red-500", "bg-red-500")
    else if color == "yellow" then ScoreColor("text-yellow-400", "border-yellow-400", "bg-yellow-400")
    else ScoreColor("text-green-400", "border-green-400", "bg-green-400")
  }

  /** The shortest recognised text, in UTF-16 code units, worth analysing. */
  const MIN_TEXT_LENGTH: nat := 3

  /** `result.data.text?.trim()` followed by `if (!text || text.length < 3)`:
      the trimmed text, when there is any and it is at least three code units
      long. */
  function AcceptOcrText(raw: Option<string>): (text: Option<string>)
    ensures text.Some? <==> raw.Some? && Utf16Length(Trim(raw.value)) >= MIN_TEXT_LENGTH
    ensures text.Some? ==> text.value == Trim(raw.value)
  {
    if raw.None? then None
    else
      var t := Trim(raw.value);
      if t == [] || Utf16Length(t) < MIN_TEXT_LENGTH then None else Some(t)
  }

  /** Accepted text is the recognised text without surrounding whitespace:
      every other character is kept, and it passes the scorer's guard. */
  lemma AcceptedText(raw: Option<string>)
    requires AcceptOcrText(raw).Some?
    ensures var t := AcceptOcrText(raw).value;
      Trimmed(t) && Visible(t) == Visible(raw.value) && !NoText(Str(t))
  {
    var t := AcceptOcrText(raw).value;
    TrimFixed(t);
    TrimKeepsVisible(raw.value);
  }

  const INITIALIZING := "Initializing OCR engine\U{2026}"
  const ANALYZING := "Analyzing for scam patterns\U{2026}"
  const NO_TEXT_ERROR := "No readable text was found in this image. Try a clearer image with visible text."
  const OCR_ERROR := "Failed to process the image. Please try again with a different image."

  /** A snapshot of the component's state, one field per `useState`. */
  datatype ScannerState = ScannerState(
    imageFile: Option<File>,
    imagePreview: Option<string>,
    isProcessing: bool,
    ocrProgress: int,
    ocrStatus: string,
    extractedText: string,
    analysisResult: Option<AnalysisResult>,
    error: string,
    isDragging: bool)

  /** The initial value of every `useState`. */
  const INITIAL := ScannerState(None, None, false, 0, "", "", None, "", false)

  /** Text that passed the guard passes it again unchanged. */
  lemma AcceptStable(raw: Option<string>)
    requires AcceptOcrText(raw).Some?
    ensures AcceptOcrText(AcceptOcrText(raw)) == AcceptOcrText(raw)
  {
    TrimFixed(AcceptOcrText(raw).value);
  }

  /** The `PhotoScanner` component's state, with its event handlers as methods. */
  class Scanner {
    var imageFile: Option<File>
    var imagePreview: Option<string>
    var isProcessing: bool
    var ocrProgress: int
    var ocrStatus: string
    var extractedText: string
    var analysisResult: Option<AnalysisResult>
    var error: string
    var isDragging: bool

    function State(): ScannerState
      reads this
    {
      ScannerState(imageFile, imagePreview, isProcessing, ocrProgress, ocrStatus,
                   extractedText, analysisResult, error, isDragging)
    }

    /** What the handlers keep true: a stored upload passed validation and
        progress is a percentage. */
    predicate Valid()
      reads this
    {
      && (imageFile.Some? ==> Acceptable(imageFile.value))
      && 0 <= ocrProgress <= 100
    }

    constructor()
      ensures State() == INITIAL && Valid()
    {
      imageFile, imagePreview, isProcessing := None, None, false;
      ocrProgress, ocrStatus, extractedText := 0, "", "";
      analysisResult, error, isDragging := None, "", false;
    }

    /** `handleFile(file)`: a rejected upload only sets the error; an accepted
        one clears the error, the text and the result and stores the file. */
    method HandleFile(file: Option<File>)
      requires Valid()
      modifies this
      ensures Valid()
      ensures ValidateFile(file).Some? ==> State() == old(State()).(error := ValidateFile(file).value)
      ensures ValidateFile(file).None? ==>
        State() == old(State()).(error := "", imageFile := file, extractedText := "", analysisResult := None)
    {
      var validationError := ValidateFile(file);
      if validationError.Some? {
        error := validationError.value;
        return;
      }
      error := "";
      imageFile := file;
      extractedText := "";
      analysisResult := None;
    }

    /** The `FileReader` callback: the data URL of the stored upload becomes the preview. */
    method OnPreviewLoaded(dataUrl: string)
      requires Valid()
      modifies this
      ensures Valid()
      ensures State() == old(State()).(imagePreview := Some(dataUrl))
    {
      imagePreview := Some(dataUrl);
    }

    /** The start of `handleScan`: without a file nothing happens; otherwise
        processing starts with the previous outcome cleared. */
    method BeginScan() returns (started: bool)
      requires Valid()
      modifies this
      ensures Valid()
      ensures started <==> old(imageFile).Some?
      ensures started ==> imageFile.Some? && Acceptable(imageFile.value)
      ensures !started ==> State() == old(State())
      ensures started ==> State() == old(State()).(isProcessing := true, error := "", extractedText := "",
        analysisResult := None, ocrProgress := 0, ocrStatus := INITIALIZING)
    {
      if imageFile.None? {
        return false;
      }
      isProcessing := true;
      error := "";
      extractedText := "";
      analysisResult := None;
      ocrProgress := 0;
      ocrStatus := INITIALIZING;
      return true;
    }

    /** Recognition has finished with `raw` as its text: too little text ends
        the scan with an error before the scorer is reached; otherwise the
        trimmed text is shown and the scan moves on to analysis. */
    method OcrRecognized(raw: Option<string>) returns (text: Option<string>)
      requires Valid()
      modifies this
      ensures Valid()
      ensures text == AcceptOcrText(raw)
      ensures text.None? ==> State() == old(State()).(error := NO_TEXT_ERROR, isProcessing := false)
      ensures text.Some? ==>
        State() == old(State()).(extractedText := text.value, ocrStatus := ANALYZING, ocrProgress := 100)
    {
      text := AcceptOcrText(raw);
      ShowOcrOutcome(text);
    }

    /** The state changes that follow the recognised-text guard. */
    method ShowOcrOutcome(text: Option<string>)
      requires Valid()
      modifies this
      ensures Valid()
      ensures text.None? ==> State() == old(State()).(error := NO_TEXT_ERROR, isProcessing := false)
      ensures text.Some? ==>
        State() == old(State()).(extractedText := text.value, ocrStatus := ANALYZING, ocrProgress := 100)
    {
      if text.None? {
        error := NO_TEXT_ERROR;
        isProcessing := false;
        return;
      }
      extractedText := text.value;
      ocrStatus := ANALYZING;
      ocrProgress := 100;
    }

    /** `handleScan()` as a whole. `recognition` is what Tesseract delivers:
        `None` when recognition throws, otherwise the recognised text. Each
        outcome leaves processing stopped: no file changes nothing, a failure
        or unreadable text leaves its error, and accepted text is shown and
        scored. */
    method HandleScan(recognition: Option<Option<string>>, test: Matcher)
      requires Valid()
      modifies this
      ensures Valid()
      ensures old(imageFile).None? ==> State() == old(State())
      ensures old(imageFile).Some? && recognition.None? ==>
        State() == old(State()).(isProcessing := false, error := OCR_ERROR, extractedText := "",
          analysisResult := None, ocrProgress := 0, ocrStatus := INITIALIZING)
      ensures old(imageFile).Some? && recognition.Some? && AcceptOcrText(recognition.value).None? ==>
        State() == old(State()).(isProcessing := false, error := NO_TEXT_ERROR, extractedText := "",
          analysisResult := None, ocrProgress := 0, ocrStatus := INITIALIZING)
      ensures old(imageFile).Some? && recognition.Some? && AcceptOcrText(recognition.value).Some? ==>
        var text := AcceptOcrText(recognition.value).value;
        State() == old(State()).(isProcessing := false, error := "", extractedText := text,
          analysisResult := Some(Analysis(SCAM_PATTERNS, Str(text), test)), ocrProgress := 100, ocrStatus := ANALYZING)
    {
      var started := BeginScan();
      if !started {
        return;
      }
      if recognition.None? {
        OcrFailed();
        return;
      }
      var text := OcrRecognized(recognition.value);
      if text.None? {
        return;
      }
      Deliver(recognition.value, text.value, test);
    }

    /** After the short delay: the text on screen is scored and the scan ends.
        Only the text the guard accepted from the recognised text `raw`, which
        `OcrRecognized` has put on screen, gets here, so the result is never
        the no-text answer. */
    method Deliver(ghost raw: Option<string>, text: string, test: Matcher)
      requires Valid()
      requires AcceptOcrText(raw) == Some(text) && extractedText == text
      modifies this
      ensures Valid()
      ensures analysisResult.Some? && analysisResult.value.recommendation != NO_TEXT_ADVICE
      ensures State() == old(State()).(analysisResult := Some(Analysis(SCAM_PATTERNS, Str(text), test)),
        isProcessing := false)
    {
      StoreAnalysis(text, test);
      AcceptedTextIsScored(raw, test);
    }

    /** `setAnalysisResult(analyzeText(text))` and the `finally` that ends the scan. */
    method StoreAnalysis(text: string, test: Matcher)
      requires Valid()
      modifies this
      ensures Valid()
      ensures State() == old(State()).(analysisResult := Some(Analysis(SCAM_PATTERNS, Str(text), test)),
        isProcessing := false)
    {
      var analysis := AnalyzeText(Str(text), test);
      analysisResult := Some(analysis);
      isProcessing := false;
    }

    /** The `catch` and `finally` of `handleScan`: recognition failed. */
    method OcrFailed()
      requires Valid()
      modifies this
      ensures Valid()
      ensures State() == old(State()).(error := OCR_ERROR, isProcessing := false)
    {
      error := OCR_ERROR;
      isProcessing := false;
    }

    /** `handleReset()`: everything but the processing and drag flags goes
        back to its initial value. */
    method HandleReset()
      requires Valid()
      modifies this
      ensures Valid()
      ensures State() == INITIAL.(isProcessing := old(isProcessing), isDragging := old(isDragging))
    {
      imageFile := None;
      imagePreview := None;
      extractedText := "";
      analysisResult := None;
      error := "";
      ocrProgress := 0;
      ocrStatus := "";
    }
  }

  // ── Properties ─────────────────────────────────────────────────────────

  /** A missing file is reported whatever else is wrong. */
  lemma MissingFileFirst()
    ensures ValidateFile(None) == Some(NO_FILE_ERROR)
  {
  }

  /** An unaccepted type is reported whatever the size. */
  lemma TypeBeforeSize(f: File)
    requires f.mime !in ACCEPTED_TYPES
    ensures ValidateFile(Some(f)) == Some(TYPE_ERROR)
  {
  }

  /** An accepted type is judged by size alone: up to 10485760 bytes it is
      accepted, and anything larger gets the size error. */
  lemma SizeBoundary(mime: string, size: nat)
    requires mime in ACCEPTED_TYPES
    ensures MAX_FILE_SIZE == 10485760
    ensures ValidateFile(Some(File(mime, size))) == if size <= MAX_FILE_SIZE then None else Some(SIZE_ERROR)
  {
  }

  /** Accepted text is never turned away by the scorer's own guard, so its
      result is a real analysis rather than the no-text answer. */
  lemma AcceptedTextIsScored(raw: Option<string>, test: Matcher)
    requires AcceptOcrText(raw).Some?
    ensures Analysis(SCAM_PATTERNS, Str(AcceptOcrText(raw).value), test).recommendation != NO_TEXT_ADVICE
  {
    AcceptedText(raw);
    var text := Str(AcceptOcrText(raw).value);
    ScamDetectorProperties.GuardResult(SCAM_PATTERNS, SCAM_PATTERNS, text, test, test);
  }

  /** The empty text is never accepted. A rejected recognition leaves the
      text on screen empty, so `Deliver`, which scores the text on screen,
      cannot follow it. */
  lemma EmptyTextRejected(raw: Option<string>)
    ensures AcceptOcrText(raw) != Some("")
  {
  }

  /** Two visible characters of the Basic Multilingual Plane are too few to
      analyse. */
  lemma TwoCharactersRejected(c: char, d: char)
    requires !IsSpace(c) && !IsSpace(d) && c as int <= 0xFFFF && d as int <= 0xFFFF
    ensures AcceptOcrText(Some([c, d])) == None
  {
    TrimFixed([c, d]);
    assert [c, d][1..] == [d] && [d][1..] == [];
    assert Utf16Length([c, d]) == 2;
  }

  /** The length is counted in UTF-16 code units: a character outside the
      Basic Multilingual Plane counts twice, so it and one more character
      are enough. */
  lemma SurrogatePairCountsTwice(c: char, d: char)
    requires !IsSpace(c) && !IsSpace(d) && c as int > 0xFFFF
    ensures AcceptOcrText(Some([c, d])) == Some([c, d])
  {
    TrimFixed([c, d]);
    assert [c, d][1..] == [d];
  }
}
