# Transcript player: a Dafny model

This project models the logic of a small browser application that uploads an
audio file for transcription and then shows the transcript as a list of
time-stamped text blocks beside an audio player. Three pieces are modelled:

- `Utils` (src/utils.ts): `findAudioBlock`, the first-match lookup of the block
  whose inclusive range `[start, end]` holds `audioTime / 1000`. It is written
  as the generic `Find` (JavaScript's `Array.prototype.find`) applied to that
  range test. Being a function, it cannot change the transcript it reads.
- `TranscriptView` (src/transcript/Transcript.tsx): the component's state
  (`audioTime`, `selectedText`, `isAudioPlaying` and the audio element's
  `currentTime`) as the class `TranscriptComponent`, with one method per
  handler (`HandleBlockClick`, `HandleScrubberChange`, `TogglePlay`,
  `TogglePause`), `RunEffect` for the effect that recomputes the highlight when
  `audioTime` changes, and `Dispatch`, which runs a handler and then the effect
  if `audioTime` changed (that is the effect's dependency). Each method is
  specified by a pure function on the `Playback` value (`BlockClick`,
  `ScrubberChange`, `Play`, `Pause`, `Effect`, `AfterEvent`), and the lemmas
  are stated about those functions. The render choice (`RenderState`) and the
  per-item highlight test (`Highlights`) are pure functions.
- `UploadForm` (src/App.tsx): the submit checks as `OnUploadTranscript`, which
  returns the outcome (an error shown through the error boundary, or one
  `mutate` call with the form), and the file-input handler as
  `App.HandleFileChange`.

Times are exact `real`s. The code reads times in two units and the model keeps
both as written: `findAudioBlock` divides the time by 1000, while the effect
divides the block bounds by 1000 (`EffectLookupIsScaledFind` states the
factor of a million between them). `ScrubHighlightClearedByEffect` shows the
effect of this on the unit tests' transcript: the scrubber's highlight is
cleared by the effect straight away. The code's documented intent is that a
clicked block is always the highlighted one. The code does not quite do
that, because the effect runs after the click whenever the click moves
`audioTime`: `ClickKeepsHighlight` gives the conditions under which the clicked
block stays highlighted. `InvertedClickHighlight` and `ShadowedClickHighlight`
show it losing the highlight when those conditions fail and the midpoint is a
new, non-zero `audioTime`. A click whose midpoint equals the previous
`audioTime` does not trigger the effect, so it keeps its selection.

JavaScript truthiness matters twice. An empty array is truthy, so the effect's
guard `!data?.blocks` and `togglePlay`'s `data?.blocks` only test whether the
transcript is present. With a present but empty transcript, the effect clears
the highlight, and play at 0 selects `blocks[0]`, which is `undefined`.

## Model

| member | source | states |
|---|---|---|
| `Utils.Find` | src/utils.ts:4 | `Array.find`: a returned element is in the sequence and passes the test; the result is none iff no element passes |
| `Utils.FindIsFirst` | src/utils.ts:4 | an element that passes the test, with no earlier element passing, is exactly what `find` returns |
| `Utils.FindReturnsFirst` | src/utils.ts:4 | what `find` returns sits at an index before which no element passes |
| `Utils.FindAgrees` | src/utils.ts:4 | two tests that agree on every element give the same `find` result |
| `Utils.FindAudioBlock` | src/utils.ts:3-4 | a returned block is one of the transcript's blocks with `start <= t/1000 <= end`; the result is none iff no block has `t/1000` in its range |
| `Utils.FindAudioBlockFirstMatch` | src/utils.ts:4 | first match wins: no block before the returned one covers `t/1000` |
| `Utils.FindAudioBlockFinds` | src/utils.ts:4 | the first block covering `t/1000` is the one returned |
| `Utils.FindAudioBlockEmpty` | src/utils.test.ts:44-53 | an empty transcript gives none for every time |
| `Utils.FindAudioBlockOrdered` | src/utils.ts:4 | in a transcript of ordered, non-overlapping blocks, any time inside block k finds block k |
| `Utils.FindAudioBlockBoundaries` | src/utils.test.ts:39-42 | both bounds are inclusive: in an ordered transcript, the block's start and end (in ms) each find that block |
| `Utils.FindAudioBlockSamples` | src/utils.test.ts:29-53 | on the test transcript, 15000 finds `{11, 20, 'text2'}`, 35000 finds none and 10000 finds `{0, 10, 'Text1'}`; an empty transcript at 5000 finds none |
| `TranscriptView.EffectLookup` | src/transcript/Transcript.tsx:85-87 | the effect's lookup returns a block of the transcript with `start/1000 <= audioTime <= end/1000`, or none iff no block qualifies |
| `TranscriptView.EffectLookupIsScaledFind` | src/transcript/Transcript.tsx:85-87 | the effect's lookup at `audioTime` equals `findAudioBlock` at `1000000 * audioTime`, because the two divide different operands by 1000 |
| `TranscriptView.UnmountedIsNoOp` | src/transcript/Transcript.tsx:30-78 | with no audio element mounted, every event (click, scrub, play, pause) leaves the whole state unchanged |
| `TranscriptView.ScrubWithoutDataIsNoOp` | src/transcript/Transcript.tsx:45 | with no transcript data, a scrub leaves the whole state unchanged |
| `TranscriptView.AfterEventKeepsSelection` | src/transcript/Transcript.tsx:30-90 | each event, with its effect, keeps the highlighted block, when present, one of the transcript's blocks |
| `TranscriptView.ClickKeepsHighlight` | src/transcript/Transcript.tsx:35-40 | after a click on block k and the effect that follows: the audio is at `start/1000`, `audioTime` is at the midpoint, playing is unchanged, and block k stays selected, provided `start <= end` and no earlier block holds the midpoint |
| `TranscriptView.ClickOnInvertedBlockDropsHighlight` | src/transcript/Transcript.tsx:35-40 | an example from the initial state: a first click selects a block whose start is after its end, and the effect then clears the selection |
| `TranscriptView.InvertedClickHighlight` | src/transcript/Transcript.tsx:35-40 | for a block whose start is after its end: if the click's midpoint is a new, non-zero `audioTime`, the effect leaves the block unselected; if the midpoint equals the previous `audioTime`, the effect does not run and the block stays selected |
| `TranscriptView.ClickOnShadowedBlockHighlightsEarlier` | src/transcript/Transcript.tsx:81-90 | an example from the initial state: after a first click, the effect moves the highlight to an earlier block that also holds the midpoint |
| `TranscriptView.ShadowedClickHighlight` | src/transcript/Transcript.tsx:81-90 | a click whose midpoint is a new, non-zero `audioTime` ends highlighting the first block that holds that midpoint, whichever block was clicked |
| `TranscriptView.ScrubHighlightIsEffects` | src/transcript/Transcript.tsx:47-56 | a scrub sets `audioTime` and `currentTime` to the value. When the value is new and non-zero, the highlight ends up as the effect's lookup. When the value is unchanged or 0, the highlight is the one `findAudioBlock` finds, or the old one if it finds none |
| `TranscriptView.ScrubHighlightClearedByEffect` | src/transcript/Transcript.tsx:47-56 | on the test transcript, scrubbing to 15000 first selects `'text2'`, and the effect then clears it: the two lookups disagree on units |
| `TranscriptView.PlayAtZeroHighlightsFirst` | src/transcript/Transcript.tsx:62-69 | play with the audio at 0 and a non-empty transcript starts playing, keeps `audioTime` at 0 and highlights `blocks[0]`, wherever `blocks[0]` starts |
| `TranscriptView.PauseFreezesPosition` | src/transcript/Transcript.tsx:75-77 | pause stops playing and sets `audioTime` to the audio position, which it does not move; the highlight is kept when `audioTime` already equalled that position |
| `TranscriptView.PlayPausePlayIsPlay` | src/transcript/Transcript.tsx:59-78 | when the audio position does not move between the presses, play, pause, play ends in the same state as one play |
| `TranscriptView.PlayAfterPauseOnlyStartsPlaying` | src/transcript/Transcript.tsx:59-78 | wherever the audio position stood at the pause, a play straight after it only sets playing back on, unless the audio is at 0 with data present |
| `TranscriptView.PauseRecomputesHighlight` | src/transcript/Transcript.tsx:72-90 | a pause after the audio moved to a new, non-zero position highlights the effect's lookup at that position |
| `TranscriptView.PlayRecomputesHighlight` | src/transcript/Transcript.tsx:59-90 | a play after the audio moved to a new, non-zero position starts playing and highlights the effect's lookup at that position |
| `TranscriptView.PauseIdempotent` | src/transcript/Transcript.tsx:72-78 | pausing twice ends in the same state as pausing once |
| `TranscriptView.BlockClick` | src/transcript/Transcript.tsx:30-41 | unmounted: no change. Mounted: the block is selected and playing is unchanged; if `start <= end`, `audioTime` lies inside the block's seconds range, at or after the seek position |
| `TranscriptView.ScrubberChange` | src/transcript/Transcript.tsx:43-57 | unmounted or without data: no change. Otherwise both times become the value and playing is unchanged; a changed selection is a transcript block covering the value in `findAudioBlock`'s sense |
| `TranscriptView.Play` | src/transcript/Transcript.tsx:59-70 | unmounted: no change. Mounted: playing, with `audioTime` copied from the unmoved audio position; the selection changes only at position 0 with data, and then to the first block |
| `TranscriptView.Pause` | src/transcript/Transcript.tsx:72-78 | unmounted: no change. Mounted: not playing, with `audioTime` copied from the audio position; the position and the selection never change |
| `TranscriptView.Effect` | src/transcript/Transcript.tsx:81-90 | the times and playing are never touched; at time 0 or without data, nothing changes; otherwise the selection becomes the effect's lookup, whose result is a transcript block whose seconds range holds `audioTime`, or none iff no block's range does |
| `TranscriptView.EffectIsFirstMatch` | src/transcript/Transcript.tsx:81-90 | at a non-zero time with data, the effect selects none iff no block's seconds range holds `audioTime`, and otherwise the first block whose range does |
| `TranscriptView.Handler` | src/transcript/Transcript.tsx:30-78 | unmounted: no change; play and pause never move the audio position; clicks and scrubs never change playing |
| `TranscriptView.AfterEvent` | src/transcript/Transcript.tsx:30-90 | unmounted: no change. The effect keeps the handler's times and playing flag. The handler's selection is replaced by the effect's lookup exactly when `audioTime` moved to a non-zero value with data present |
| `TranscriptView.TranscriptComponent.constructor` | src/transcript/Transcript.tsx:17-20 | the component starts at time 0, with nothing selected and not playing |
| `TranscriptView.TranscriptComponent.HandleBlockClick` | src/transcript/Transcript.tsx:30-41 | for a block of the rendered list, changes only `audioTime`, `currentTime` and `selectedText`, as `BlockClick` says, and keeps the selection inside the transcript |
| `TranscriptView.TranscriptComponent.HandleScrubberChange` | src/transcript/Transcript.tsx:43-57 | changes only `audioTime`, `currentTime` and `selectedText`, as `ScrubberChange` says, and keeps the selection inside the transcript |
| `TranscriptView.TranscriptComponent.TogglePlay` | src/transcript/Transcript.tsx:59-70 | changes only `audioTime`, `selectedText` and `isAudioPlaying`, as `Play` says, and keeps the selection inside the transcript |
| `TranscriptView.TranscriptComponent.TogglePause` | src/transcript/Transcript.tsx:72-78 | changes only `audioTime` and `isAudioPlaying`, as `Pause` says, and keeps the selection inside the transcript |
| `TranscriptView.TranscriptComponent.RunEffect` | src/transcript/Transcript.tsx:81-90 | changes only `selectedText`, as `Effect` says, and keeps the selection inside the transcript |
| `TranscriptView.TranscriptComponent.Dispatch` | src/transcript/Transcript.tsx:30-90 | runs a handler and then the effect when `audioTime` changed, keeping the highlight inside the transcript |
| `TranscriptView.RenderState` | src/transcript/Transcript.tsx:92-108 | strict priority: error whenever there is an error, then loading, then "No data" for absent or empty blocks, and the list exactly otherwise |
| `TranscriptView.Highlights` | src/transcript/Transcript.tsx:115-116 | one flag per block, true iff the block's text equals the selected block's text |
| `TranscriptView.HighlightsSelection` | src/transcript/Transcript.tsx:116 | with nothing selected no item is highlighted; a selected block of the list is highlighted |
| `TranscriptView.HighlightsUnique` | src/transcript/Transcript.tsx:116 | when texts are distinct, selecting block k highlights block k and no other |
| `TranscriptView.HighlightsByText` | src/transcript/Transcript.tsx:116 | two blocks with the same text are highlighted together |
| `UploadForm.OnUploadTranscript` | src/App.tsx:29-49 | a missing file is rejected with "No file selected", checked first. A file over 4718592 bytes is rejected with "File size exceeds 4.5 MB". `mutate` is called iff neither holds, once, with the file under `'audio'` |
| `UploadForm.SizeLimitIsInclusive` | src/App.tsx:40 | the limit is `1048576 * 4.5` = 4718592 bytes; a file of exactly that size is sent and one byte more is refused |
| `UploadForm.App.constructor` | src/App.tsx:25-27 | the form starts with no file, no audio URL and no file error |
| `UploadForm.App.HandleFileChange` | src/App.tsx:51-58 | a null list changes nothing. Otherwise `fileError` becomes false and `file` becomes the first file, with its object URL as `audioUrl` |

## Left out

- Network calls (uploading the file, fetching a transcript) and the React Query cache: the transcript is an input value (`TranscriptComponent.data`), fixed for the component's life.
- The audio element: `play()`, `pause()`, `duration`, and the clamping the browser applies when `currentTime` is assigned. `currentTime` is a plain field that only the handlers and the environment set. There is no clock-tick handler in the component, so none is modelled.
- Floating point: times are exact reals, so `/ 1000`, the midpoint and `parseFloat` are exact, and `parseFloat`'s NaN is not modelled.
- JSX rendering, the error boundary, `console.error`, `FormData` internals and `showBoundary`: the render choice is a `Screen` value, and a submit is an `UploadOutcome` value.
- The `error` prop is modelled as a boolean: its truthiness.
- Whether the audio element is mounted, and which events can arrive, are not tied to the rendered screen. In the component, the audio element, the buttons and the list items exist only when the block list is shown, so a mounted element implies a non-empty transcript. The pause button is shown only while playing. The model admits any event in any state, so some of its lemmas also describe sequences the component cannot produce: play at 0 on an empty transcript, and two pauses in a row.
- A transcript always carries its `blocks` list in this model (src/types.ts, which declares the type, is not part of this model). The upload wrapper builds `blocks` from the service's `sentences` field, so `blocks` can be undefined. The model does not capture that case: with `blocks` undefined, the effect would return early instead of clearing the highlight, and the scrubber's `findAudioBlock` would throw.
- React's batching and re-render scheduling: `Dispatch` runs the effect straight after the handler, when `audioTime` changed.
- App.HandleFileChange: with an empty file list, `files[0]` is `undefined` and `URL.createObjectURL` throws. The model keeps the two updates queued before the throw (`fileError` false, `file` none) and leaves `audioUrl` unchanged. The thrown error itself is not modelled.
