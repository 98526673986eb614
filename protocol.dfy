/** Runs of the session: the user actions and analysis replies that drive it,
    which of them the page makes possible, and what holds after any run that
    keeps to one outstanding analysis at a time. */
module Protocol {
  import opened AppState

  /** A selection from the uploader, the awaited analysis settling, or a click
      on a reset button. */
  datatype Event =
    | ImageSelected(file: File, base64: string, preview: string)
    | AnalysisSettled(outcome: Outcome)
    | ResetClicked

  function Step(s: Snapshot, e: Event): (r: Snapshot)
    ensures e.ImageSelected? ==> r.analysisState == Analyzing
    ensures e.ResetClicked? ==> r == Initial
  {
    match e
    case ImageSelected(file, base64, preview) => Select(s, file, base64, preview)
    case AnalysisSettled(outcome) => Resolve(s, outcome)
    case ResetClicked => Reset(s)
  }

  /** An event may happen when the page offers it: a selection while the
      uploader is rendered and no analysis is outstanding, a reply while
      analyzing, a reset while a reset button is rendered. The page itself
      offers selections from the uploader and resets from the two buttons;
      that no selection is made while analyzing is assumed, not enforced. */
  predicate Enabled(s: Snapshot, e: Event)
    ensures e.ImageSelected? ==>
      (Enabled(s, e) <==> s.analysisState == Idle || s.analysisState == Error)
    ensures e.AnalysisSettled? ==> (Enabled(s, e) <==> s.analysisState == Analyzing)
    ensures e.ResetClicked? ==>
      (Enabled(s, e) <==> ReportShown(s) || s.analysisState == Error)
  {
    match e
    case ImageSelected(_, _, _) => Uploader in Views(s) && s.analysisState != Analyzing
    case AnalysisSettled(_) => s.analysisState == Analyzing
    case ResetClicked => ResetButton in Views(s)
  }

  function Run(s: Snapshot, events: seq<Event>): Snapshot
    decreases |events|
  {
    if events == [] then s else Run(Step(s, events[0]), events[1..])
  }

  /** Every event of the run is enabled in the session it meets. */
  predicate Admissible(s: Snapshot, events: seq<Event>)
    decreases |events|
  {
    events == [] || (Enabled(s, events[0]) && Admissible(Step(s, events[0]), events[1..]))
  }

  /** Under this protocol a selection is only made from Idle or Error. */
  lemma SelectionOnlyFromIdleOrError(s: Snapshot, e: Event)
    requires e.ImageSelected? && Enabled(s, e)
    ensures s.analysisState == Idle || s.analysisState == Error
  {
  }

  /** One enabled event keeps the session well-shaped. */
  lemma StepKeepsShape(s: Snapshot, e: Event)
    requires WellShaped(s) && Enabled(s, e)
    ensures WellShaped(Step(s, e))
  {
  }

  /** A whole admissible run keeps the session well-shaped. */
  lemma {:induction false} RunKeepsShape(s: Snapshot, events: seq<Event>)
    requires WellShaped(s) && Admissible(s, events)
    ensures WellShaped(Run(s, events))
    decreases |events|
  {
    if events != [] {
      StepKeepsShape(s, events[0]);
      RunKeepsShape(Step(s, events[0]), events[1..]);
    }
  }

  /** Every session reachable from the initial one by an admissible run has
      one of the four shapes, so in particular a Complete session always
      renders its report. */
  lemma ReachableIsWellShaped(events: seq<Event>)
    requires Admissible(Initial, events)
    ensures WellShaped(Run(Initial, events))
    ensures Run(Initial, events).analysisState == Complete ==> ReportShown(Run(Initial, events))
  {
    RunKeepsShape(Initial, events);
  }

  /** No well-shaped session is a dead end: this admissible run leads back to
      the initial session. From Analyzing no reset is offered and nothing
      cancels or times out the call, so the way back starts with the reply
      itself: it holds only if `analyzeImage` settles. */
  function WayBack(s: Snapshot): (t: seq<Event>)
    requires WellShaped(s)
    ensures Admissible(s, t) && Run(s, t) == Initial
  {
    match s.analysisState
    case Idle => []
    case Analyzing =>
      assert Step(Step(s, AnalysisSettled(Failure(""))), ResetClicked) == Initial;
      [AnalysisSettled(Failure("")), ResetClicked]
    case Complete => [ResetClicked]
    case Error => [ResetClicked]
  }

  /** Without the one-outstanding-analysis rule the shapes do not hold: a
      second selection while analyzing, then both replies, the first a
      success and the second a failure, leaves an Error session that still
      holds the first result. */
  lemma OverlappingSelectionsBreakShape(a: File, b: File, data: AnalysisResult)
    ensures var events := [ImageSelected(a, "A", "a"), ImageSelected(b, "B", "b"),
                           AnalysisSettled(Success(data)), AnalysisSettled(Failure("timeout"))];
      !Admissible(Initial, events) &&
      Run(Initial, events).analysisState == Error &&
      Run(Initial, events).result == Some(data) &&
      !WellShaped(Run(Initial, events))
  {
    var events := [ImageSelected(a, "A", "a"), ImageSelected(b, "B", "b"),
                   AnalysisSettled(Success(data)), AnalysisSettled(Failure("timeout"))];
    var s1 := Step(Initial, events[0]);
    var s2 := Step(s1, events[1]);
    var s3 := Step(s2, events[2]);
    var s4 := Step(s3, events[3]);
    assert !Enabled(s1, events[1]);
    assert Run(Initial, events) == Run(s1, events[1..]);
    assert Run(s1, events[1..]) == Run(s2, events[2..]);
    assert Run(s2, events[2..]) == Run(s3, events[3..]);
    assert Run(s3, events[3..]) == Run(s4, events[4..]);
  }

  /** Since the continuation checks nothing, a reply that arrives after a
      reset moves the session to Complete with no image: then no view that
      depends on the session is rendered and no event is enabled. The run
      needs a second selection while analyzing. */
  lemma LateReplyAfterResetStrandsSession(a: File, b: File, d1: AnalysisResult, d2: AnalysisResult)
    ensures var events := [ImageSelected(a, "A", "a"), ImageSelected(b, "B", "b"),
                           AnalysisSettled(Success(d1)), ResetClicked, AnalysisSettled(Success(d2))];
      var r := Run(Initial, events);
      r.analysisState == Complete && r.currentImage == None && Views(r) == {} &&
      forall e: Event :: !Enabled(r, e)
  {
    var events := [ImageSelected(a, "A", "a"), ImageSelected(b, "B", "b"),
                   AnalysisSettled(Success(d1)), ResetClicked, AnalysisSettled(Success(d2))];
    var s1 := Step(Initial, events[0]);
    var s2 := Step(s1, events[1]);
    var s3 := Step(s2, events[2]);
    var s4 := Step(s3, events[3]);
    var s5 := Step(s4, events[4]);
    assert Run(Initial, events) == Run(s1, events[1..]);
    assert Run(s1, events[1..]) == Run(s2, events[2..]);
    assert Run(s2, events[2..]) == Run(s3, events[3..]);
    assert Run(s3, events[3..]) == Run(s4, events[4..]);
    assert Run(s4, events[4..]) == Run(s5, events[5..]);
  }
}
