/** The analysis session of the App component as values: the four pieces of
    state it holds, the two handlers as transitions on them, and the guards
    that decide which parts of the page are rendered. */
module AppState {

  datatype Option<+T> = None | Some(value: T)

  /** The four values of the AnalysisState enumeration. */
  datatype AnalysisState = Idle | Analyzing | Complete | Error

  /** The browser File handed over by the uploader; of it, only its name and
      its declared media type (`file.type`) are modelled. */
  datatype File = File(name: string, fileType: string)

  /** The record kept in `currentImage`. */
  datatype UploadedImage = UploadedImage(file: File, base64: string, previewUrl: string, mimeType: string)

  /** The verdict `analyzeImage` resolves with; its schema belongs to the
      remote model, so here it is one opaque value. */
  datatype AnalysisResult = AnalysisResult(verdict: string)

  /** How the awaited `analyzeImage` call ended: with a result, or by throwing. */
  datatype Outcome = Success(data: AnalysisResult) | Failure(cause: string)

  /** The two arguments `analyzeImage` is called with. */
  datatype AnalysisRequest = AnalysisRequest(base64: string, mimeType: string)

  /** The one message shown for every failed analysis. */
  const FailureMessage: string :=
    "Failed to analyze the image. Please ensure the API key is valid or try a different image."

  /** The four state fields of the component, read at one moment. */
  datatype Snapshot = Snapshot(
    analysisState: AnalysisState,
    currentImage: Option<UploadedImage>,
    result: Option<AnalysisResult>,
    error: Option<string>)

  /** The session as the four `useState` calls initialise it. */
  const Initial: Snapshot := Snapshot(Idle, None, None, None)

  /** The stored image carries the media type of the file it came from. */
  predicate ImageConsistent(img: UploadedImage) {
    img.mimeType == img.file.fileType
  }

  /** The four shapes a session is meant to take, one per state. */
  predicate WellShaped(s: Snapshot) {
    (s.currentImage.Some? ==> ImageConsistent(s.currentImage.value)) &&
    match s.analysisState
    case Idle => s.currentImage.None? && s.result.None? && s.error.None?
    case Analyzing => s.currentImage.Some? && s.result.None? && s.error.None?
    case Complete => s.currentImage.Some? && s.result.Some? && s.error.None?
    case Error => s.currentImage.Some? && s.result.None? && s.error == Some(FailureMessage)
  }

  /** The image record `handleImageSelected` builds from its arguments. */
  function ImageFrom(file: File, base64: string, preview: string): (img: UploadedImage)
    ensures ImageConsistent(img)
    ensures img.file == file && img.base64 == base64 && img.previewUrl == preview
  {
    UploadedImage(file, base64, preview, file.fileType)
  }

  /** The arguments of the `analyzeImage` call made for a selection. */
  function RequestFor(file: File, base64: string): (req: AnalysisRequest)
    ensures req.base64 == base64 && req.mimeType == file.fileType
  {
    AnalysisRequest(base64, file.fileType)
  }

  /** The synchronous part of `handleImageSelected`, up to the await. Whatever
      the session held before, it is now analyzing the new image. */
  function Select(s: Snapshot, file: File, base64: string, preview: string): (r: Snapshot)
    ensures WellShaped(r) && r.analysisState == Analyzing
    ensures r.currentImage == Some(ImageFrom(file, base64, preview))
  {
    Snapshot(Analyzing, Some(ImageFrom(file, base64, preview)), None, None)
  }

  /** The continuation after the await. It does not look at the state it
      resumes in: the image is kept, and only the result (on success) or the
      error (on failure) is written, besides the state. */
  function Resolve(s: Snapshot, outcome: Outcome): (r: Snapshot)
    ensures r.currentImage == s.currentImage
    ensures outcome.Success? ==>
      r.analysisState == Complete && r.result == Some(outcome.data) && r.error == s.error
    ensures outcome.Failure? ==>
      r.analysisState == Error && r.error == Some(FailureMessage) && r.result == s.result
    ensures WellShaped(s) && s.analysisState == Analyzing ==>
      WellShaped(r) && (r.analysisState == Complete || r.analysisState == Error)
  {
    match outcome
    case Success(data) => s.(analysisState := Complete, result := Some(data))
    case Failure(_) => s.(analysisState := Error, error := Some(FailureMessage))
  }

  /** `handleReset`: every field goes back to its initial value. */
  function Reset(s: Snapshot): (r: Snapshot)
    ensures WellShaped(r) && r.analysisState == Idle
  {
    Snapshot(Idle, None, None, None)
  }

  /** Reset gives back the initial session from any state, and doing it twice
      is the same as doing it once. */
  lemma ResetRestoresInitial(s: Snapshot)
    ensures Reset(s) == Initial
    ensures Reset(Reset(s)) == Reset(s)
  {
  }

  /** What the session looked like before a selection leaves no trace in it:
      a stale error or result is cleared. */
  lemma SelectForgetsPrevious(s: Snapshot, t: Snapshot, file: File, base64: string, preview: string)
    ensures Select(s, file, base64, preview) == Select(t, file, base64, preview)
    ensures Select(s, file, base64, preview).error == None
    ensures Select(s, file, base64, preview).result == None
  {
  }

  /** The image sent for analysis is the image stored: same content, and the
      media type of both is the file's own. */
  lemma RequestMatchesStoredImage(s: Snapshot, file: File, base64: string, preview: string)
    ensures var img := Select(s, file, base64, preview).currentImage.value;
      RequestFor(file, base64).base64 == img.base64 &&
      RequestFor(file, base64).mimeType == img.mimeType == file.fileType
  {
  }

  /** The parts of the page whose rendering depends on the session. */
  datatype View = Hero | Uploader | Scanner | Report | ErrorPanel | ResetButton

  /** The guard of the results section. On a well-shaped session it comes
      down to the state being Complete. */
  predicate ReportShown(s: Snapshot)
    ensures ReportShown(s) ==> s.analysisState == Complete
    ensures WellShaped(s) ==> (ReportShown(s) <==> s.analysisState == Complete)
  {
    s.analysisState == Complete && s.result.Some? && s.currentImage.Some?
  }

  /** The views rendered for a session; a reset button exists only inside
      the results section and inside the error panel. */
  function Views(s: Snapshot): (v: set<View>)
    ensures Hero in v <==> s.analysisState == Idle
    ensures Uploader !in v <==> s.analysisState == Complete
    ensures Scanner in v <==> s.analysisState == Analyzing && s.currentImage.Some?
    ensures Report in v <==> ReportShown(s)
    ensures Report in v ==> s.result.Some? && s.currentImage.Some?
    ensures ErrorPanel in v <==> s.analysisState == Error
    ensures ResetButton in v ==> s.analysisState == Complete || s.analysisState == Error
    ensures ResetButton in v <==> Report in v || ErrorPanel in v
  {
    (if s.analysisState == Idle then {Hero} else {})
    + (if s.analysisState != Complete then {Uploader} else {})
    + (if s.analysisState == Analyzing && s.currentImage.Some? then {Scanner} else {})
    + (if ReportShown(s) then {Report, ResetButton} else {})
    + (if s.analysisState == Error then {ErrorPanel, ResetButton} else {})
  }

  /** On a well-shaped session the page is determined by the state alone:
      exactly one of report, scanner and error panel is shown outside Idle,
      none in Idle, and a reset is offered exactly in Complete and Error. */
  lemma ViewsByState(s: Snapshot)
    requires WellShaped(s)
    ensures s.analysisState == Idle ==> Views(s) == {Hero, Uploader}
    ensures s.analysisState == Analyzing ==> Views(s) == {Uploader, Scanner}
    ensures s.analysisState == Complete ==> Views(s) == {Report, ResetButton}
    ensures s.analysisState == Error ==> Views(s) == {Uploader, ErrorPanel, ResetButton}
  {
  }

  /** In a well-shaped Complete session the results section's guard holds,
      so the report is rendered with a result and a preview to show. */
  lemma CompleteShowsReport(s: Snapshot)
    requires WellShaped(s) && s.analysisState == Complete
    ensures ReportShown(s) && Report in Views(s)
  {
  }
}
