# Vidiomark analysis hub — Dafny model

A model of the logic inside the Vidiomark dashboard: a page that embeds a
video player and sends a free-text "video concept" to a generative model,
then shows the structured analysis it returns. The model covers:

- **The analysis client** (`GeminiService`, `AnalysisSchema`, `Json`): the
  prompt built from the concept, the request's response schema and its
  match with the `AnalysisResult` record, and how the reply text is
  decoded. Empty or absent text falls back to `{}`. Text that does not
  parse becomes a single error. A parsed value is returned without any
  field check. `JSON.parse` is a parameter `parse: string -> Option<Json>`.
  The service module and the copy inlined in `App.tsx` are both modelled.
- **The analysis panel's state** (`AnalysisSession`): modal visibility,
  typed concept, stored analysis and loading flag. The asynchronous
  `handleAnalyze` is split into `Begin` (up to the await) and `Complete`
  (after it). A `World` pairs the panel with the calls still in flight,
  and trace lemmas show that from the initial page at most one call is
  ever in flight, for the model's events, in which the modal's controls
  disappear as soon as the modal closes (see "## Left out").
- **The player controls** (`Player`): play/pause, mute, volume slider,
  speed menu, the volume icon and the slider's displayed value. Both the
  `VideoHub` component and the copy inlined in `App.tsx` are modelled.
  Volume is counted in twentieths (the slider step of 0.05), so 20 is full
  volume and 10 is one half. The rate is one of four enum values.
- **`formatTime`** (`TimeFormat`): whole seconds rendered as `m:ss`, with
  an inverse parser and round trips in both directions.

The model states what the code does, including behaviour a more careful
client would avoid:
- The concept is not trimmed. A whitespace-only concept is sent.
- The reply is not validated against the schema. There is one
  parse-failure error, not separate empty/malformed/schema errors; an
  empty reply succeeds as `{}`.
- A failed call keeps the previous analysis on the panel. Starting a new
  call does not clear it either.
- There is no cancellation token. A reply that arrives after the modal
  was closed is still stored, and it is the panel's analysis when the
  modal is reopened (`LateReplyIsStoredForReopen`).

## Model

| member | source | states |
|---|---|---|
| Json.Lookup | services/geminiService.ts:34 | a member is found iff its key occurs; the value found is the last member with that key, as `JSON.parse` keeps the later duplicate |
| AnalysisSchema.ToJson | types.ts:2-8 | the JSON form of a result has exactly the five `AnalysisResult` keys, in declaration order |
| AnalysisSchema.SchemaMatchesResult | services/geminiService.ts:13-28 | the response schema lists exactly the five result fields as properties and as required keys; labels are strings, lists are string arrays |
| AnalysisSchema.FromToJson | types.ts:2-8 | reading a result back from its JSON form gives the same result |
| AnalysisSchema.FromJsonIffConforms | services/geminiService.ts:13-28 | a parsed reply yields a typed result exactly when it satisfies the response schema |
| AnalysisSchema.ToJsonConforms | services/geminiService.ts:13-28 | every result's JSON form satisfies the schema |
| AnalysisSchema.EmptyObjectDoesNotConform | services/geminiService.ts:28 | `{}` lacks required keys, so it yields no typed result |
| GeminiService.Prompt | services/geminiService.ts:10 | the prompt is the fixed prefix, the concept verbatim, then a closing double quote |
| GeminiService.PromptRoundTrip | services/geminiService.ts:10 | the concept can be read back from the prompt, untrimmed and unescaped |
| GeminiService.PromptInjective | services/geminiService.ts:10 | different concepts give different prompts |
| GeminiService.ServiceRequest | services/geminiService.ts:8-31 | the service request carries the concept, the fixed model name and MIME type, and exactly the response schema |
| GeminiService.PageRequest | App.tsx:26-43 | the page's inlined request carries the concept under its own prefix, with the same model, MIME type and schema |
| GeminiService.EffectiveText | services/geminiService.ts:34 | absent or empty text becomes `{}`; any other text is kept as it is |
| GeminiService.DecodeWith | services/geminiService.ts:33-38 | decoding succeeds iff the effective text parses; the parsed value is returned unchanged; a failure carries the given error |
| GeminiService.ServiceDecode | services/geminiService.ts:33-38 | the service's decoding step fails exactly on unparsable text, always with the message "Analysis failed" |
| GeminiService.PageDecode | App.tsx:44 | the inlined copy fails exactly on unparsable text, with the parser's own syntax error |
| GeminiService.EmptyReplyIsEmptyObject | services/geminiService.ts:34 | absent text, empty text and `{}` decode alike |
| GeminiService.ServiceFailureIsUniform | services/geminiService.ts:35-38 | any two failing replies give the same error |
| GeminiService.DecodersAgree | App.tsx:44 | the two copies succeed on the same replies and return the same value |
| GeminiService.UncheckedReplyIsReturned | services/geminiService.ts:34 | whatever the parser yields is the result, with no field or type check |
| GeminiService.EmptyReplySucceedsWithoutFields | services/geminiService.ts:34 | an empty reply succeeds with an object that does not satisfy the schema |
| TimeFormat.DecimalValue | App.tsx:109 | the numeral printed for n denotes n and has no leading zero |
| TimeFormat.FormatTime | App.tsx:106-110 | the output is a canonical numeral for t div 60, a colon, and two digits (first at most 5) denoting t mod 60 |
| TimeFormat.ParseFormatTime | components/VideoHub.tsx:70-74 | every rendering parses back to the time it renders |
| TimeFormat.FormatParseTime | components/VideoHub.tsx:70-74 | every string that parses as `m:ss` is the rendering of the time it parses to |
| TimeFormat.FormatTimeInjective | components/VideoHub.tsx:71-73 | different times render differently |
| TimeFormat.FormatTimeExample | App.tsx:107-109 | 65 renders as "1:05", 0 as "0:00", 600 as "10:00" |
| Player.TogglePlay | components/VideoHub.tsx:14-23 | with the element, `isPlaying` flips and nothing else changes; without it, nothing changes |
| Player.InitialPlayerShowsFullVolume | components/VideoHub.tsx:6-12 | the player starts paused, unmuted at full volume, at 1x with the menu closed, with the "up" icon and a full slider |
| Player.TogglePlayInvolution | App.tsx:69-73 | toggling play twice restores the state |
| Player.SpeedChange | components/VideoHub.tsx:62-68 | the chosen rate is stored and the menu closes, element or not; nothing else changes |
| Player.ToggleSpeedMenu | components/VideoHub.tsx:200 | the menu flag flips and nothing else changes |
| Player.MediaPlayed | components/VideoHub.tsx:123 | the element's play event sets `isPlaying` only |
| Player.MediaPaused | components/VideoHub.tsx:124 | the element's pause event clears `isPlaying` only |
| Player.HubVolumeChange | components/VideoHub.tsx:45-52 | the volume is always stored; with the element, muted iff the new volume is 0; without it, the mute flag is kept |
| Player.HubToggleMute | components/VideoHub.tsx:54-60 | with the element, the mute flag flips and the volume stays; without it, nothing changes |
| Player.PageVolumeChange | App.tsx:199-204 | the page's slider stores the volume and sets muted iff it is 0, element or not |
| Player.PageToggleMute | App.tsx:194 | the page's mute button flips the flag unconditionally and changes nothing else |
| Player.HubVolumeIcon | components/VideoHub.tsx:181 | the icon is off iff muted or silent, down iff unmuted and below one half, up iff unmuted and at least one half |
| Player.PageVolumeIcon | App.tsx:195 | the page's icon is off iff muted and is never the "down" icon |
| Player.SliderValue | components/VideoHub.tsx:190 | the slider shows 0 while muted and the stored volume otherwise |
| Player.HubToggleMuteInvolution | components/VideoHub.tsx:54-60 | muting twice restores the state |
| Player.PageToggleMuteInvolution | App.tsx:194 | the page's mute button twice restores the state |
| Player.VolumeChangeLastWins | components/VideoHub.tsx:45-52 | two slider moves equal the last one alone, in both copies |
| Player.SpeedChangeLastWins | App.tsx:87-91 | two rate choices equal the last one alone |
| Player.SpeedMenuHighlightsCurrent | components/VideoHub.tsx:207-211 | the menu offers exactly 0.5, 1, 1.5 and 2 in increasing order, and highlights exactly the current rate |
| Player.SpeedLabelInjective | components/VideoHub.tsx:203 | distinct rates have distinct labels |
| Player.HubIconAgreesWithSlider | components/VideoHub.tsx:181-190 | the icon is off iff the slider shows 0, and up iff the slider shows at least one half |
| Player.HubSliderDrivesIcon | components/VideoHub.tsx:45-52 | with the element, moving the slider to v leaves the icon off iff v is 0 |
| Player.HubStep | components/VideoHub.tsx:117-126 | no control or element event changes whether the element exists |
| Player.HubWithoutElementNeverPlaysOrMutes | components/VideoHub.tsx:14-60 | without the element, no event sequence changes `isPlaying` or the mute flag |
| Player.MuteStaysWithoutMuteControls | components/VideoHub.tsx:54-60 | events other than mute clicks and slider moves never change the mute flag |
| Player.HubSliderToZeroMutes | components/VideoHub.tsx:45-52 | with the element, after a slider move to 0 the video stays muted, with the off icon, until the next mute or volume control |
| AnalysisSession.Stored | App.tsx:56 | a parsed `null` leaves no analysis; any other value is stored as it is |
| AnalysisSession.OpenModal | App.tsx:127 | the header button shows the modal and changes nothing else |
| AnalysisSession.EditConcept | App.tsx:321 | typing replaces the concept and changes nothing else |
| AnalysisSession.Begin | App.tsx:93-97 | an empty concept changes nothing and issues no call; any other concept sets `loading`, issues one call with that concept, and changes nothing else |
| AnalysisSession.Complete | App.tsx:97-103 | `loading` ends false; a returned value replaces the analysis; a thrown error keeps it; nothing else changes |
| AnalysisSession.CloseModal | App.tsx:310 | closing hides the modal and clears the analysis, keeping the concept and the loading flag |
| AnalysisSession.CallOutcome | App.tsx:25-44 | the call returns iff the endpoint replied and the page's decoding succeeded, with the decoded value |
| AnalysisSession.EmptyConceptIsIgnored | App.tsx:94 | with an empty concept the handler is a no-op that issues no call |
| AnalysisSession.BlankConceptIsSent | App.tsx:94 | every non-empty whitespace-only concept is sent as it is and sets `loading` |
| AnalysisSession.ReturnedReplacesWholesale | App.tsx:97-98 | after a returned value, the state does not depend on the previous analysis |
| AnalysisSession.FailureOnlyEndsLoading | App.tsx:99-103 | a thrown error only clears `loading` |
| AnalysisSession.UnparsableReplyKeepsAnalysis | App.tsx:44 | an unparsable reply or a failed call leaves the previous analysis shown |
| AnalysisSession.EmptyReplyStoresEmptyObject | App.tsx:44 | an empty reply stores an empty object, which yields no typed result |
| AnalysisSession.Step | App.tsx:299-327 | the analyze button does nothing unless the modal is open, not loading and the concept non-empty, and otherwise sets `loading` and adds one pending call with the concept; typing and closing do nothing with the modal shut; a settling event with nothing pending does nothing |
| AnalysisSession.StepKeepsConsistent | App.tsx:93-104 | every event keeps: at most one call in flight, `loading` iff one is, no call for an empty concept |
| AnalysisSession.RunKeepsConsistent | App.tsx:325-327 | every event sequence keeps that invariant |
| AnalysisSession.AtMostOneCallInFlight | App.tsx:327 | from the initial page, no event sequence has two calls in flight or a call for an empty concept |
| AnalysisSession.AnalyzeWhileLoadingIsInert | App.tsx:327 | the analyze button does nothing while loading |
| AnalysisSession.LoadingBracketsTheCall | App.tsx:95-103 | an enabled click sets `loading` with one call pending; its settling, success or failure, clears both |
| AnalysisSession.LateReplyIsStoredForReopen | App.tsx:97-98 | a non-null reply that arrives after the modal closed is stored and is the panel's analysis on reopening |
| AnalysisSession.CloseKeepsConcept | App.tsx:310 | closing keeps the concept and the pending call and clears the analysis |

## Left out

- The endpoint client and the `generateContent` call: remote I/O through a
  foreign library. The reply is a parameter (`Reply`, `Outcome`).
- `JSON.parse` itself: a parameter, so the model says nothing about which
  texts parse.
- JSON numbers are integers. No property here depends on fractions.
- Timing: apart from the modal's exit fade (next two lines), only the
  order of events matters. Stale-response races are modelled as event
  orders; nothing was added to guard against them, because the source has
  no guard.
- AnalysisSession.Step: clicks during the modal's exit fade are not
  modelled. The modal sits in an animated presence with an exit fade, so
  after the close click the last-rendered modal stays mounted and
  clickable until the fade ends, with its analyze button frozen enabled
  and its `handleAnalyze` holding the old concept. In that window the page
  can send calls with the modal closed; the model removes the controls at
  once.
- AnalysisSession.AtMostOneCallInFlight: holds only for event sequences
  without clicks during the modal's exit fade. Two analyze clicks in that
  window put two calls in flight, and whichever settles first clears
  `loading` while the other is still pending.
- The media element's side effects (`play`, `pause`, `volume`, `muted`,
  `playbackRate`, `requestFullscreen`): only whether the element exists is
  kept.
- `handleTimeUpdate`, `handleScrub`, `handleLoadedMetadata` and the
  progress bar width: real-valued time and NaN duration.
- `console.error` logging on failure.
- Endpoint errors (network failure, rejected credential, timeout): the
  page's handler treats every error alike, so all reach the panel as
  `Threw`. The service module's `generateContent` call sits outside its
  `try`, so it passes endpoint errors through unchanged rather than as
  "Analysis failed"; that pass-through is not modelled.
- Rendering of the stored analysis: the panel draws it only when it is
  truthy and then maps over its `insights` and `recommendations`. A
  stored value that is falsy (`false`, `""`, `0`) draws nothing or a
  stray "0", and one that lacks those arrays, such as the `{}` an empty
  reply produces, throws during rendering. The model stores the value
  and offers `FromJson` as the typed view, but does not model drawing.
- `Header.tsx`, `StatsFooter.tsx` and `AnalyticsPanel.tsx`: static markup
  and mock chart data. Also left out: animations, charts and styling.
- TimeFormat.FormatTime: takes whole non-negative seconds. The source
  floors `time / 60` and `time % 60` separately; for a non-negative real t
  this gives the same output as formatting floor(t). NaN, negative and
  infinite times (an `Infinity` duration prints "Infinity:NaN"), and
  times whose minutes reach 10^21 (printed in exponent notation) or exceed
  2^53 (no longer exact) are not modelled.
- The page's player copy has no listeners for the element's own play and
  pause events and does not highlight the current rate; `HubStep` models
  the `VideoHub` copy's events only.
- Player.PageVolumeChange: accepts any twentieth. The page's slider has a
  step of 0.1, so it only produces even twentieths.
