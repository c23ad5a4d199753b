# Dental Voice Note: recording and summarization controller

This project models the controller inside the `App` component of Dental Voice Note. The app records a dentist's spoken notes and transcribes them with the browser's speech recognizer. It sends each finished transcript to a summarization service and shows the transcript and its summary as a note in a log.

The controller is a small event-driven state machine. Every handler runs to completion, so each one is modelled as one method of the class `Session.App`. The fields are the component's state:

- `isRecording`, `isSummarizing` and `error`
- `currentTranscript` (finalized text) and `interimTranscript`
- `messages` (the note log)
- `apiKey`, plus `storedKey` for the local-storage entry
- `isApiKeyModalOpen` and `apiKeyError`
- `listening`: the recognizer in `recognitionRef` has been started and its session has not ended, so its handlers still get events

The method for each handler:

- `OnResult` is the recognizer's `onresult` handler. Its loop is `Recognition.FoldResults`.
- `OnError` is `onerror`, and `OnEnd` is `onend`.
- `ToggleRecording` is the record button.
- `HandleSummarize` and `ResolveSummary` are `handleSummarize`, split at its `await`. `Reject` is its `catch` block.
- `SaveApiKey` is `handleApiKeySave`.
- `SetApiKey` is `setApiKey` together with the recognition effect that a changed key re-runs.

Each method states the whole new state as an update of the old one, through `Snapshot()`. It also keeps the invariant `Valid()`: entry ids are unique and below the id counter, recording needs a recognizer, and a listening recognizer was started with a usable key. The recognizer's handlers require `listening`: a recognizer that was never started, or whose handlers were detached, delivers no events.

The pure parts are functions with lemmas:

- `JsString`: JavaScript's `trim` and `includes`.
- `Recognition`: what one result event contributes, and how events accumulate.
- `NoteLog`: the log's append, update-by-id (`map`) and remove-by-id (`filter`).

`Scenarios` holds runs of several handlers, proved from the handlers' contracts alone.

Inputs from outside are parameters:

- the recognizer's events (`ResultEvent`, an error code, an end event);
- whether the recognizer's `start()` throws (`restartFails`, `startFails`);
- how the summarization call settles (`SummaryOutcome`);
- the stored key and the browser's speech capability, which go to the constructor.

`Date.now()` entry ids are modelled as a counter, `nextId`.

Behaviours of the code that are easy to misread:

- **Separator.** A result event adds one space after its whole finalized chunk, not one per finalized segment (`Recognition.OneSeparatorPerEvent`).
- **No stopping state.** Stopping sets `isRecording` to false at once. The end event that follows then finalizes.
- **Errors.** An error event does not clear the interim text and does not stop the later end event from handing the transcript off. A successful handoff then clears the recognition error (`Scenarios.ErrorThenEnd`).
- **Start clears both transcripts.** Starting clears the finalized transcript as well as the interim one, and it clears them even when `start()` then throws.
- **No capability error on start.** On a browser without speech recognition, the recognition effect sets the error at mount and again after every key change. The record button itself silently does nothing.
- **Starting too early.** Between a stop and its end event the recognizer's session is still running, so `start()` throws. The record button then shows the start error, and the transcripts it cleared are gone.
- **A key change strands the recording.** A rejected key, or a saved key that differs from the current one, changes `handleSummarize`. The recognition effect then detaches the running recognizer's handlers, stops it, and creates a new recognizer that nobody starts. `isRecording` stays true. Pressing stop then gets no end event, so the transcript is never handed off, and the next start clears it (`Scenarios.KeyChangeStrandsTranscript`).
- **No handoff without a key.** A recognizer only delivers events if it was started with a usable key, and every key change since then has detached it. So the end event always finds a key, and its call to `handleSummarize` never takes the missing-key branch.
- **One busy flag.** `isSummarizing` is a single shared flag. The first handoff to settle clears it.

## Model

| member | source | states |
|---|---|---|
| JsString.Trim | App.tsx:159-160 | the trimmed text (also tested at App.tsx:78) is no longer than the original and neither starts nor ends with whitespace |
| JsString.Includes | App.tsx:101 | a string includes each of its prefixes, the empty string among them, and nothing longer than itself |
| JsString.TrimStartSpec | App.tsx:159-160 | `trim`'s left half keeps the suffix from the first non-whitespace character and drops only ECMAScript whitespace |
| JsString.TrimEndSpec | App.tsx:159-160 | `trim`'s right half keeps the prefix up to the last non-whitespace character and drops only whitespace |
| JsString.TrimIsInnerSlice | App.tsx:159-160 | the trimmed transcript is one contiguous slice of it, with whitespace only on either side, and neither starts nor ends with whitespace |
| JsString.TrimEmptyIff | App.tsx:78 | `!transcription.trim()` holds exactly when the transcription is all whitespace |
| JsString.TrimIdempotent | App.tsx:159-160 | the text handed off is already trimmed, so `handleSummarize`'s own trim check sees the same text |
| Recognition.FoldResults | App.tsx:127-135 | the loop from `resultIndex` on yields the in-order concatenation of the final transcripts and, separately, of the non-final ones |
| Recognition.PiecesPartition | App.tsx:129-135 | every visited segment goes to exactly one of the two outputs: as many pieces as segments, the same transcripts as a multiset, the same total length |
| Recognition.AppendChunk | App.tsx:137-139 | the old finalized text stays as a prefix; a non-empty chunk is followed by exactly one space, an empty one adds nothing |
| Recognition.AccumulatedExtends | App.tsx:137-139 | result events only append to the finalized transcript, which stays a prefix |
| Recognition.AccumulatedSplit | App.tsx:137-152 | events before and after an unsolicited restart accumulate as one run: nothing lost, repeated or reordered |
| Recognition.OneSeparatorPerEvent | App.tsx:129-139 | for every event whose new segments are all final, their transcripts are joined with no separator and one space follows the whole chunk |
| NoteLog.AppendFresh | App.tsx:88-90 | appending a pending entry stamped with a fresh id keeps ids unique |
| NoteLog.Without | App.tsx:109 | the filter never lengthens the log, and no surviving entry carries the id |
| NoteLog.WithSummary | App.tsx:94-98 | the map gives every entry with the id the new summary and leaves every other entry and all positions as they were |
| NoteLog.WithSummaryAt | App.tsx:94-98 | with unique ids, exactly the one entry with that id changes, and only in its summary |
| NoteLog.WithoutMembers | App.tsx:109 | the filter keeps exactly the entries whose id differs |
| NoteLog.WithoutAppend | App.tsx:109 | the filter preserves order |
| NoteLog.WithoutAt | App.tsx:109 | with unique ids, removing an entry by id leaves the entries before and after it in order |
| NoteLog.WithoutKeepsUnique | App.tsx:109 | removal keeps ids unique |
| NoteLog.AppendThenResolve | App.tsx:90-98 | a pending entry resolved by its id becomes that same entry with the summary, in the same place |
| NoteLog.AppendThenRemove | App.tsx:88-109 | a pending entry removed on failure leaves the log as it was before the handoff |
| NoteLog.ResolvedInReverse | App.tsx:88-98 | two pending entries resolved newest first end up in creation order, each with its own summary |
| NoteLog.ResolutionsCommute | App.tsx:92-98 | results for two different entries give the same log in either arrival order |
| NoteLog.RemovalAndResolutionCommute | App.tsx:92-109 | a failure for one entry and a success for another commute |
| NoteLog.RemovalsCommute | App.tsx:109 | two failures commute |
| NoteLog.SameStampCrossTalk | App.tsx:88-109 | with `Date.now()` ids, for any log, two entries appended with the same stamp are both filled by one summary and both removed by one failure, and so is any older entry with that stamp |
| Session.ServiceInvalidKeyIsRecognized | services/geminiService.ts:44-45 | the service's bad-key message contains the marker the app tests for |
| Session.ErrorMessage | App.tsx:100 | an `Error` contributes its own message; any other thrown value gives the fixed text, which is never taken for a rejected key |
| Session.AfterHandoff | App.tsx:78-90 | the synchronous part of `handleSummarize` never drops or edits an existing entry, adds at most one, and keeps ids unique and below the counter |
| Session.WithApiKey | App.tsx:169-178 | a different key (through `handleSummarize`'s dependency at App.tsx:113) detaches the running recognizer, so no more events arrive; the recording flag, the transcripts and the log stay; the same key changes nothing |
| Session.App.SetApiKey | App.tsx:113-178 | the new state is the old one under `WithApiKey`, and the invariant is kept |
| Session.App.constructor | App.tsx:33-40 | a usable stored key is loaded, otherwise the key dialog opens; an unsupported browser leaves the error that the effect at App.tsx:115-119 sets; everything else starts empty |
| Session.App.OnResult | App.tsx:126-141 | a non-empty chunk is appended with one trailing space, an empty one changes nothing, and the interim text is replaced wholesale; nothing else changes |
| Session.App.OnError | App.tsx:143-146 | recording ends and the error is set; the transcripts and everything else stay |
| Session.App.OnEnd | App.tsx:148-165 | while recording: the recognizer is started again with nothing else changed, or, when that start throws, the error is set and recording ends. Otherwise the session is over: a non-blank transcript is handed off once, trimmed, a pending entry is created, and both transcripts are cleared; a blank one changes nothing |
| Session.App.ToggleRecording | App.tsx:181-204 | without a key, only the dialog opens. When recording: a stop request and recording off, transcripts kept. Otherwise, with a recognizer: both transcripts cleared, a start request, then recording on and the error cleared, or, when the start throws or the previous session has not ended, the start error and recording off |
| Session.App.HandleSummarize | App.tsx:77-91 | a blank transcription does nothing. Without a key, the error is set and the dialog opens, and the log is unchanged. Otherwise exactly one entry is appended, with a fresh id and an empty summary |
| Session.App.Reject | App.tsx:99-109 | the entry is removed; a message with the invalid-key marker drops the key from storage and memory, which detaches the recognizer, and reopens the dialog with the message; any other message is shown as a summary failure |
| Session.App.ResolveSummary | App.tsx:92-112 | success updates only the entry with that id. Failure removes it and either drops the key (marker present), which detaches the recognizer, or shows the prefixed message. `isSummarizing` is false on every path |
| Session.App.SaveApiKey | App.tsx:206-211 | the key is stored and used, a different key detaches the recognizer, the dialog closes and its error clears |
| Scenarios.RecordAcrossRestart | App.tsx:126-165 | start, result, unsolicited end, result, stop, end: the handoff is the trimmed accumulation of both events across the restart |
| Scenarios.ErrorThenEnd | App.tsx:143-165 | an error followed by its end event still hands off the non-blank transcript, and the handoff, which always finds a key, clears the error |
| Scenarios.OverlappingHandoffs | App.tsx:77-113 | two handoffs resolved in reverse order each keep their own summary, in creation order |
| Scenarios.KeyChangeStrandsTranscript | App.tsx:169-178 | a key rejected (App.tsx:103) and replaced mid-recording leaves no listening recognizer, so stopping hands nothing off and the next start clears the transcript; the log only loses the rejected entry |
| Scenarios.RejectedKey | App.tsx:99-109 | a key rejection leaves the log as it was before the handoff, drops the key from memory and storage, and opens the dialog |

## Left out

- Rendering, scrolling and the install prompt (App.tsx:42-75, 213-297) and the components: display only.
- The summarization service: it wraps a vendor client that is not part of this model. Its result is the `SummaryOutcome` parameter. Only its bad-key message is modelled, as `ServiceInvalidKeyMessage`.
- The service worker `sw.js`: cache and fetch I/O.
- Local storage is the `storedKey` field, not persistent storage.
- The recognizer itself is not modelled: its locale, its configuration, and which events it sends when. Its `start()` fails when `startFails` or `restartFails` holds, or when the previous session has not ended. The capability check is a constructor flag.
- The entry `timestamp` field: display only.
- The `[0]` alternative of each recognition result is taken as the segment's transcript. A result with no alternatives, which would throw, is not modelled.
- Session.App.SetApiKey: the recognition effect re-runs after React renders the key change. The model applies it at once, together with `setApiKey`.
- Session.App.OnEnd: reads `isRecording` and `currentTranscript` as the current fields. The source reads `isRecordingRef` and `currentTranscriptRef` (App.tsx:26-29), which are updated only at render. An end event delivered before React renders a preceding `onerror` or `onresult` update sees the old values. It can then start the recognizer again after an error, or hand off a transcript without the last final chunk, which the following `setCurrentTranscript('')` then drops. The model does not capture those interleavings.
- Session.App.ToggleRecording: the model takes `start()` to throw from a start until that session's end event, including after an error event. The Web Speech API only requires this until an error or end event has fired, so a start between an error and its end event may succeed in a browser, where the model reports the start error.
- Session.App.ToggleRecording: the recording flag it reads is the rendered state. Two presses before a render are not modelled.
- Interleaving of asynchronous work is modelled as separate method calls. A result settles through `ResolveSummary` with its entry id, so nothing forbids settling one id twice or settling an id that was never issued (both behave as the map and filter do).
- Session.App.HandleSummarize: entry ids come from a counter rather than `Date.now()`, which is the correction of the finding below.

## Findings

| source | as written | input that shows it | evidently intended | confidence | as-written member | corrected member |
|---|---|---|---|---|---|---|
| App.tsx:88 | a pending entry's id is `Date.now()` | two pending entries stamped with the same `Date.now()` value, for example when the system clock is set back while an earlier entry is still pending | each entry has its own id, so each result touches only its own entry | low (needs two handoffs with the same stamp); not executed | NoteLog.SameStampCrossTalk | Session.App.HandleSummarize |
