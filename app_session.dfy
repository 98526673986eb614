/** The App component's session as an object: the four state fields, and the
    handlers that assign them one setter at a time. */
module AppSession {
  import opened AppState
  import opened Protocol

  class Session {
    var analysisState: AnalysisState
    var currentImage: Option<UploadedImage>
    var result: Option<AnalysisResult>
    var error: Option<string>

    /** The four fields as one value. */
    function Current(): Snapshot
      reads this
    {
      Snapshot(analysisState, currentImage, result, error)
    }

    /** The initial values of the four `useState` calls. */
    constructor ()
      ensures Current() == Initial
      ensures WellShaped(Current())
    {
      analysisState := Idle;
      currentImage := None;
      result := None;
      error := None;
    }

    /** The synchronous part of `handleImageSelected`; it returns the
        arguments of the `analyzeImage` call that follows. */
    method SelectImage(file: File, base64: string, preview: string) returns (request: AnalysisRequest)
      modifies this
      ensures analysisState == Analyzing
      ensures currentImage == Some(ImageFrom(file, base64, preview))
      ensures result == None && error == None
      ensures Current() == Step(old(Current()), ImageSelected(file, base64, preview))
      ensures request == RequestFor(file, base64)
      ensures request.mimeType == currentImage.value.mimeType == file.fileType
    {
      currentImage := Some(ImageFrom(file, base64, preview));
      analysisState := Analyzing;
      error := None;
      result := None;
      request := RequestFor(file, base64);
    }

    /** The continuation of `handleImageSelected` once `analyzeImage` has
        settled; like the source, it does not check the state it resumes in. */
    method ResolveAnalysis(outcome: Outcome)
      modifies this
      ensures currentImage == old(currentImage)
      ensures outcome.Success? ==>
        analysisState == Complete && result == Some(outcome.data) && error == old(error)
      ensures outcome.Failure? ==>
        analysisState == Error && error == Some(FailureMessage) && result == old(result)
      ensures Current() == Step(old(Current()), AnalysisSettled(outcome))
    {
      match outcome
      case Success(data) =>
        result := Some(data);
        analysisState := Complete;
      case Failure(_) =>
        error := Some(FailureMessage);
        analysisState := Error;
    }

    /** `handleReset`. */
    method Reset()
      modifies this
      ensures analysisState == Idle && currentImage == None && result == None && error == None
      ensures Current() == Initial
      ensures Current() == Step(old(Current()), ResetClicked)
    {
      analysisState := Idle;
      currentImage := None;
      result := None;
      error := None;
    }

    /** The whole of `handleImageSelected` when nothing else runs during the
        await; `outcome` is how the `analyzeImage` call with `request` ended.
        From any session it ends in the Complete or the Error shape. */
    method HandleImageSelected(file: File, base64: string, preview: string, outcome: Outcome)
      returns (request: AnalysisRequest)
      modifies this
      ensures request == RequestFor(file, base64)
      ensures Current() == Run(old(Current()), [ImageSelected(file, base64, preview), AnalysisSettled(outcome)])
      ensures WellShaped(Current())
      ensures analysisState == (if outcome.Success? then Complete else Error)
      ensures currentImage == Some(ImageFrom(file, base64, preview))
    {
      ghost var before := Current();
      request := SelectImage(file, base64, preview);
      ghost var selected := Current();
      ResolveAnalysis(outcome);
      ghost var events := [ImageSelected(file, base64, preview), AnalysisSettled(outcome)];
      assert Run(before, events) == Run(selected, events[1..]);
      assert Run(selected, events[1..]) == Run(Current(), events[1..][1..]);
      assert events[1..][1..] == [];
    }
  }
}
