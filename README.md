# Analysis session of the AI image detector

The detector's `App` component holds one analysis session in four React state
fields: `analysisState` (IDLE, ANALYZING, COMPLETE or ERROR), `currentImage`,
`result` and `error`. Two handlers change them. `handleImageSelected` stores
the chosen image, moves to ANALYZING, awaits the remote `analyzeImage` call,
and then moves to COMPLETE with the result or to ERROR with a fixed message.
`handleReset` clears everything back to IDLE. The render tree decides from
the same fields which parts of the page exist: the hero, the uploader, the
scanner animation, the report, the error panel, and the reset buttons inside
the last two.

This project models that session in three modules:

- `AppState` (`app_state.dfy`) holds the data model as values. It has the
  enumeration, the image record, an opaque analysis result, the outcome of
  the awaited call, and a `Snapshot` of the four fields. It also holds the
  handlers as pure transitions (`Select`, `Resolve`, `Reset`), the four
  intended session shapes (`WellShaped`) and the render guards (`Views`).
- `Protocol` (`protocol.dfy`) models runs as sequences of events. An event is
  a selection, a settled analysis or a reset click. `Enabled` says which
  events the page offers, assuming one outstanding analysis at a time:
  - a selection needs the uploader on screen and no analysis pending;
  - a reply needs the ANALYZING state;
  - a reset needs a reset button on screen.
  The module proves that every admissible run from the initial session keeps
  the four shapes. It also shows two concrete runs that break them once that
  assumption is dropped.
- `AppSession` (`app_session.dfy`) holds the component's state as a class
  `Session` with the four fields. Its methods assign the fields in the
  source's order. Each method states its whole new state and ties it to the
  matching pure transition.

`analyzeImage` is an oracle here. The part of `handleImageSelected` after the
await receives how the call ended as an `Outcome` parameter: `Success(data)`
or `Failure(cause)`. The cause is not stored or shown; the source only logs it. The await
is the boundary between `SelectImage` and `ResolveAnalysis`.
`HandleImageSelected` runs both halves with nothing in between.

Two facts about `App` limit what can be proved:

- The continuation after the await checks neither the state nor any epoch.
- The uploader stays mounted while ANALYZING (App.tsx:83). So nothing in
  `App` refuses a second selection during an analysis.

Whether `ImageUploader` refuses such a selection itself is not known:
ImageUploader is not part of this model. The shape invariant is therefore
proved only for admissible runs. `OverlappingSelectionsBreakShape` and
`LateReplyAfterResetStrandsSession` show what goes wrong without that
assumption; the second ends in a COMPLETE session with no image, where no
view that depends on the session is rendered and no handler can be reached.
No stale-response safety is claimed.

Reset clears all four fields from every state; it checks nothing. Reset
buttons are rendered only in COMPLETE and in ERROR.

## Model

| member | source | states |
|---|---|---|
| `AppState.ImageFrom` | App.tsx:15 | the stored image record holds the given file, base64 text and preview URL, and its `mimeType` is the file's own `type` |
| `AppState.RequestFor` | App.tsx:21 | `analyzeImage` is called with the selection's base64 text and the file's `type` |
| `AppState.Select` | App.tsx:15-18 | whatever the prior session, after the synchronous prefix it is ANALYZING, well-shaped, and holds exactly the new image |
| `AppState.Resolve` | App.tsx:21-27 | the image is kept; success gives COMPLETE with the returned data and leaves `error` untouched; failure of any cause gives ERROR with the fixed message and leaves `result` untouched; from a well-shaped ANALYZING session the result is a well-shaped COMPLETE or ERROR session |
| `AppState.Reset` | App.tsx:31-36 | from any session, reset yields a well-shaped IDLE session |
| `AppState.ResetRestoresInitial` | App.tsx:9-36 | reset from any state equals the initial session of the four `useState` calls, and is idempotent |
| `AppState.SelectForgetsPrevious` | App.tsx:15-18 | a selection's outcome does not depend on the prior session: an old error or result, for example from ERROR, is cleared |
| `AppState.RequestMatchesStoredImage` | App.tsx:15-21 | the base64 text and the media type sent for analysis are those stored on `currentImage`, and both media types are `file.type` |
| `AppState.ReportShown` | App.tsx:157 | the results guard holds only in COMPLETE, and on a well-shaped session it holds exactly in COMPLETE |
| `AppState.Views` | App.tsx:67-186 | on any session, each guard as an if-and-only-if: hero exactly in IDLE; uploader hidden exactly in COMPLETE; scanner exactly in ANALYZING with an image; report exactly when the results guard holds, hence only with a result and an image; error panel exactly in ERROR; a reset button exists exactly inside the report or the error panel, hence only in COMPLETE or ERROR |
| `AppState.ViewsByState` | App.tsx:67-186 | on a well-shaped session: IDLE shows hero and uploader; ANALYZING shows uploader and scanner; COMPLETE shows report and reset; ERROR shows uploader, error panel and reset |
| `AppState.CompleteShowsReport` | App.tsx:157 | in a well-shaped COMPLETE session the report guard `result && currentImage` holds |
| `Protocol.Enabled` | App.tsx:83-184 | a selection needs the uploader mounted (lines 83-88), a reply needs ANALYZING, a reset needs a rendered reset button (lines 161-167: COMPLETE with the report shown; lines 179-184: ERROR); the conjunct "no selection while ANALYZING" is an assumption of the model, not something `App` enforces |
| `Protocol.Step` | App.tsx:14-36 | a selection always leads to ANALYZING and a reset always to the initial session |
| `Protocol.SelectionOnlyFromIdleOrError` | App.tsx:83 | with the uploader as the only way to select and no analysis pending, a selection starts from IDLE or ERROR |
| `Protocol.StepKeepsShape` | App.tsx:14-36 | each event the page offers keeps the session in one of the four shapes |
| `Protocol.RunKeepsShape` | App.tsx:14-36 | every admissible run from a well-shaped session ends well-shaped |
| `Protocol.ReachableIsWellShaped` | App.tsx:9-36 | every session reachable from the initial one by an admissible run has one of the four shapes, and in COMPLETE it renders its report |
| `Protocol.WayBack` | App.tsx:161-184 | from every well-shaped session an admissible run leads back to the initial session, so no state is terminal, provided a pending `analyzeImage` call settles (from ANALYZING the way back begins with the reply) |
| `Protocol.OverlappingSelectionsBreakShape` | App.tsx:21-27 | a second selection while ANALYZING, then a success and a failure, is not admissible and ends in ERROR while still holding the first result |
| `Protocol.LateReplyAfterResetStrandsSession` | App.tsx:21-23 | a reply that arrives after a reset moves the session to COMPLETE with no image; then no view is rendered and no event is enabled |
| `AppSession.Session.constructor` | App.tsx:9-12 | a new session equals the initial, well-shaped IDLE session |
| `AppSession.Session.SelectImage` | App.tsx:14-18 | ANALYZING with the new image (`mimeType = file.type`) and null result and error; it returns the request for `analyzeImage`, whose media type is the stored one |
| `AppSession.Session.ResolveAnalysis` | App.tsx:21-27 | image unchanged; success stores the data and moves to COMPLETE; failure stores the fixed message and moves to ERROR; no precondition, as the source makes no check |
| `AppSession.Session.Reset` | App.tsx:31-36 | all four fields are back to their initial values from any state |
| `AppSession.Session.HandleImageSelected` | App.tsx:14-29 | the whole handler with nothing run during the await ends, from any session, in a well-shaped COMPLETE (success) or ERROR (failure) session holding the new image |

## Left out

- JSX layout, CSS classes, icons and copy (App.tsx:38-200) are presentation. Only the guards at lines 67, 83, 93, 157 and 174 are modelled, and the reset buttons at 161-167 and 179-184.
- The `new Date()` calls (App.tsx:118, App.tsx:193) read the clock and do not affect the session.
- The `console.error` call (App.tsx:25) is logging. The failure's cause is carried in `Outcome.Failure` and then dropped.
- `analyzeImage` and its service are not part of this model. Its reply is a parameter, and `AnalysisResult` is one opaque value.
- `ImageUploader`, base64 encoding and preview-URL creation are not part of this model. So is the intake-failure path, which lives there. That also leaves open whether the uploader refuses a selection while ANALYZING.
- React's asynchronous, batched `setState` and the scheduling of `await` are not modelled. Setters are sequential assignments, and the await is the boundary between two methods.
- `File` keeps only a name and the declared `type`. No other browser `File` attribute is read by `App`.
- Protocol.RunKeepsShape: the shape invariant is proved only for runs with one outstanding analysis at a time. `App` does not enforce that rule, since the uploader stays mounted while ANALYZING (App.tsx:83). Resets come only from the two rendered buttons (App.tsx:162, App.tsx:180), as in the source.
