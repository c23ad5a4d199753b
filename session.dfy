/**
 * The recording and summarization controller of the `App` component: its
 * state fields, and one method per event handler that updates them.
 */
module Session {
  import opened Wrappers
  import opened JsString
  import opened Recognition
  import opened NoteLog

  const UnsupportedError := "Web Speech API is not supported in this browser."
  const RestartError := "Recognition stopped and could not restart."
  const StartError := "Recording could not be started. It might have been stopped prematurely."
  const MissingKeyError := "API Key is not set. Cannot summarize."
  const UnknownError := "An unknown error occurred."
  /** The marker by which a rejected summarization is taken for a bad key. */
  const InvalidKeyMarker := "API key is not valid"
  /** What the summarization service throws when the vendor rejects the key. */
  const ServiceInvalidKeyMessage := "The provided " + InvalidKeyMarker + ". Please enter a new one."

  function RecognitionError(code: string): string {
    "Speech recognition error: " + code
  }

  function SummaryError(message: string): string {
    "Failed to get summary: " + message
  }

  /** The service's message for a rejected key carries the marker, so that
      rejection takes the invalid-key branch. */
  lemma ServiceInvalidKeyIsRecognized()
    ensures Includes(ServiceInvalidKeyMessage, InvalidKeyMarker)
  {
    assert OccursAt(ServiceInvalidKeyMessage, InvalidKeyMarker, 13);
  }

  /** What a rejected summarization promise carries: an `Error` with its
      message, or some other thrown value. */
  datatype Rejection = ErrorObject(message: string) | OtherThrown

  /** How the awaited summarization call settles. */
  datatype SummaryOutcome = Summarized(summary: string) | Rejected(reason: Rejection)

  /** The fallback text for a thrown value that is not an `Error` does not
      carry the invalid-key marker. */
  lemma UnknownErrorLacksMarker()
    ensures !Includes(UnknownError, InvalidKeyMarker)
  {
    forall i | 0 <= i <= |UnknownError| - |InvalidKeyMarker|
      ensures !OccursAt(UnknownError, InvalidKeyMarker, i)
    {
      assert InvalidKeyMarker[1] == 'P';
      assert UnknownError[i + 1] != 'P';
    }
  }

  /** `err instanceof Error ? err.message : 'An unknown error occurred.'`: an
      `Error` contributes its own message; anything else gives the fixed
      text, which is never taken for a rejected key. */
  function ErrorMessage(reason: Rejection): (r: string)
    ensures reason.ErrorObject? ==> r == reason.message
    ensures reason.OtherThrown? ==> !Includes(r, InvalidKeyMarker)
  {
    match reason
    case ErrorObject(message) => message
    case OtherThrown => UnknownErrorLacksMarker(); UnknownError
  }

  /** The call a handler makes on the browser's recognizer. */
  datatype EngineCall = NoCall | StartCall | StopCall

  /** The whole state of the controller, as one value, for stating what a
      handler changes and what it leaves alone. */
  datatype View = View(
    isRecording: bool,
    isSummarizing: bool,
    error: Option<string>,
    currentTranscript: string,
    interimTranscript: string,
    messages: seq<Message>,
    apiKey: Option<string>,
    storedKey: Option<string>,
    isApiKeyModalOpen: bool,
    apiKeyError: Option<string>,
    nextId: nat,
    listening: bool)

  /** A key is usable when it is present and non-empty (`!apiKey` is false). */
  predicate KeyUsable(key: Option<string>) {
    key.Some? && key.value != ""
  }

  /** The state right after the synchronous part of `handleSummarize` has run
      on a transcription that does not trim to nothing: no existing entry is
      dropped or edited, at most one is added, and the ids stay unique and
      below the counter. */
  function AfterHandoff(v: View, transcription: string): (w: View)
    ensures v.messages <= w.messages && |w.messages| <= |v.messages| + 1
    ensures UniqueIds(v.messages) && IdsBelow(v.messages, v.nextId) ==>
      UniqueIds(w.messages) && IdsBelow(w.messages, w.nextId)
  {
    if !KeyUsable(v.apiKey) then
      v.(error := Some(MissingKeyError), isApiKeyModalOpen := true)
    else
      var m := Message(v.nextId, transcription, "");
      assert UniqueIds(v.messages) && IdsBelow(v.messages, v.nextId) ==>
        UniqueIds(v.messages + [m]) && IdsBelow(v.messages + [m], v.nextId + 1) by {
        if UniqueIds(v.messages) && IdsBelow(v.messages, v.nextId) {
          AppendFresh(v.messages, m, v.nextId);
        }
      }
      v.(isSummarizing := true, error := None, apiKeyError := None,
         messages := v.messages + [m], nextId := v.nextId + 1)
  }

  /** `setApiKey(key)` together with the recognition effect it triggers: a key
      that differs from the current one changes `handleSummarize`, so the
      effect tears the running recognizer down (handlers detached, stopped)
      and creates a new one that nobody starts, or, without speech support,
      sets the capability error again. The recording flag, the transcripts
      and the log stay as they were. */
  function WithApiKey(v: View, key: Option<string>, supported: bool): (w: View)
    ensures w.apiKey == key
    ensures key != v.apiKey ==> !w.listening
    ensures key == v.apiKey ==> w == v
    ensures && w.isRecording == v.isRecording && w.currentTranscript == v.currentTranscript
            && w.interimTranscript == v.interimTranscript && w.messages == v.messages
  {
    if key == v.apiKey then v
    else v.(apiKey := key, listening := false,
            error := if supported then v.error else Some(UnsupportedError))
  }

  class App {
    /** Whether the browser offers speech recognition (checked once, at mount). */
    const speechSupported: bool

    var isRecording: bool
    var isSummarizing: bool
    var error: Option<string>
    var currentTranscript: string
    var interimTranscript: string
    var messages: seq<Message>
    var apiKey: Option<string>
    /** The `gemini_api_key` entry of the browser's local storage. */
    var storedKey: Option<string>
    var isApiKeyModalOpen: bool
    var apiKeyError: Option<string>
    /** The id the next log entry gets; stands for the `Date.now()` stamp. */
    var nextId: nat
    /** The recognizer in `recognitionRef` has been started and its session has
        not ended yet: only then are its `onresult`, `onerror` and `onend`
        handlers called. */
    var listening: bool

    ghost function Snapshot(): View
      reads this
    {
      View(isRecording, isSummarizing, error, currentTranscript, interimTranscript,
           messages, apiKey, storedKey, isApiKeyModalOpen, apiKeyError, nextId, listening)
    }

    /** Entry ids are unique and all below `nextId`; recording needs a
        recognizer; a listening recognizer was started with a usable key, and
        every key change since would have replaced it. */
    ghost predicate Valid()
      reads this
    {
      && UniqueIds(messages)
      && IdsBelow(messages, nextId)
      && (isRecording ==> speechSupported)
      && (listening ==> speechSupported && KeyUsable(apiKey))
    }

    /** Mounting: the stored key is loaded (or the key dialog opens), and the
        recognition effect leaves an error behind on an unsupported browser. */
    constructor (stored: Option<string>, supported: bool)
      ensures Valid() && speechSupported == supported
      ensures Snapshot() == View(
        false, false, if supported then None else Some(UnsupportedError), "", "", [],
        if KeyUsable(stored) then stored else None, stored, !KeyUsable(stored), None, 0, false)
    {
      speechSupported := supported;
      isRecording, isSummarizing := false, false;
      currentTranscript, interimTranscript := "", "";
      messages, nextId := [], 0;
      storedKey, apiKeyError := stored, None;
      listening := false;
      if KeyUsable(stored) {
        apiKey, isApiKeyModalOpen := stored, false;
      } else {
        apiKey, isApiKeyModalOpen := None, true;
      }
      error := if supported then None else Some(UnsupportedError);
    }

    /** `setApiKey` and the recognizer re-creation a changed key causes. */
    method SetApiKey(key: Option<string>)
      requires Valid()
      modifies this
      ensures Valid()
      ensures Snapshot() == WithApiKey(old(Snapshot()), key, speechSupported)
    {
      if key != apiKey {
        apiKey := key;
        listening := false;
        if !speechSupported {
          error := Some(UnsupportedError);
        }
      }
    }

    /** `onresult`: a non-empty finalized chunk is appended with one trailing
        space; the interim text is replaced by this event's, never appended to. */
    method OnResult(ev: ResultEvent)
      requires Valid() && listening
      modifies this
      ensures Valid()
      ensures Snapshot() == old(Snapshot()).(
        currentTranscript := AppendChunk(old(currentTranscript), FinalChunk(ev)),
        interimTranscript := InterimText(ev))
    {
      var finalChunk, interim := FoldResults(ev);
      if finalChunk != "" {
        currentTranscript := currentTranscript + finalChunk + " ";
      }
      interimTranscript := interim;
    }

    /** `onerror`: recording ends and the error is shown; both transcripts stay,
        and the session's end event is still to come. */
    method OnError(code: string)
      requires Valid() && listening
      modifies this
      ensures Valid()
      ensures Snapshot() == old(Snapshot()).(error := Some(RecognitionError(code)), isRecording := false)
    {
      error := Some(RecognitionError(code));
      isRecording := false;
    }

    /** `onend`. While recording, the end was not asked for: the recognizer is
        started again and the transcripts are kept (if that start throws,
        recording ends with an error). Otherwise the session is over: a
        transcript that trims to something is handed to `handleSummarize`
        once, trimmed, and both transcripts are cleared; a blank one changes
        nothing. */
    method OnEnd(restartFails: bool) returns (call: EngineCall, handoff: Option<string>, entry: Option<nat>)
      requires Valid() && listening
      modifies this
      ensures Valid()
      ensures call == (if old(isRecording) then StartCall else NoCall)
      ensures old(isRecording) ==> handoff == None && entry == None
      ensures old(isRecording) && !restartFails ==> Snapshot() == old(Snapshot())
      ensures old(isRecording) && restartFails ==>
        Snapshot() == old(Snapshot()).(error := Some(RestartError), isRecording := false, listening := false)
      ensures !old(isRecording) && Trim(old(currentTranscript)) == "" ==>
        handoff == None && entry == None && Snapshot() == old(Snapshot()).(listening := false)
      ensures !old(isRecording) && Trim(old(currentTranscript)) != "" ==>
        && handoff == Some(Trim(old(currentTranscript)))
        && entry == Some(old(nextId))
        && Snapshot() == AfterHandoff(old(Snapshot()), Trim(old(currentTranscript))).(
             currentTranscript := "", interimTranscript := "", listening := false)
    {
      call, handoff, entry := NoCall, None, None;
      if isRecording {
        call := StartCall;
        if restartFails {
          error := Some(RestartError);
          isRecording := false;
          listening := false;
        }
      } else {
        var text := Trim(currentTranscript);
        listening := false;
        isRecording := false;
        ghost var ended := Snapshot();
        assert ended == old(Snapshot()).(listening := false);
        if text != "" {
          TrimIdempotent(old(currentTranscript));
          entry := HandleSummarize(text);
          ghost var handedOff := Snapshot();
          assert handedOff == AfterHandoff(ended, text);
          handoff := Some(text);
          currentTranscript := "";
          interimTranscript := "";
          assert Snapshot() == handedOff.(currentTranscript := "", interimTranscript := "");
        }
      }
    }

    /** `toggleRecording`. Without a key it only opens the key dialog. While
        recording it asks the recognizer to stop and marks recording as over,
        keeping the transcripts for the end event. Otherwise, when a recognizer
        exists, it clears both transcripts and starts one; the start throws
        when asked for (`startFails`) and whenever the recognizer's previous
        session has not ended yet. */
    method ToggleRecording(startFails: bool) returns (call: EngineCall)
      requires Valid()
      modifies this
      ensures Valid()
      ensures !KeyUsable(old(apiKey)) ==>
        call == NoCall && Snapshot() == old(Snapshot()).(isApiKeyModalOpen := true)
      ensures KeyUsable(old(apiKey)) && old(isRecording) ==>
        call == StopCall && Snapshot() == old(Snapshot()).(isRecording := false)
      ensures KeyUsable(old(apiKey)) && !old(isRecording) && !speechSupported ==>
        call == NoCall && Snapshot() == old(Snapshot())
      ensures KeyUsable(old(apiKey)) && !old(isRecording) && speechSupported ==>
        && call == StartCall
        && (var fails := startFails || old(listening);
            Snapshot() == old(Snapshot()).(
              currentTranscript := "", interimTranscript := "",
              isRecording := !fails,
              listening := old(listening) || !fails,
              error := if fails then Some(StartError) else None))
    {
      call := NoCall;
      if !KeyUsable(apiKey) {
        isApiKeyModalOpen := true;
        return;
      }
      if isRecording {
        call := StopCall;
        isRecording := false;
      } else if speechSupported {
        currentTranscript := "";
        interimTranscript := "";
        call := StartCall;
        if startFails || listening {
          error := Some(StartError);
          isRecording := false;
        } else {
          listening := true;
          isRecording := true;
          error := None;
        }
      }
    }

    /** The part of `handleSummarize` that runs before the summarizer is
        awaited. A blank transcription is ignored; without a key the error is
        set and the key dialog opens; otherwise exactly one pending entry with
        an empty summary and a fresh id is appended. */
    method HandleSummarize(transcription: string) returns (entry: Option<nat>)
      requires Valid()
      modifies this
      ensures Valid()
      ensures Trim(transcription) == "" ==> entry == None && Snapshot() == old(Snapshot())
      ensures Trim(transcription) != "" ==>
        && entry == (if KeyUsable(old(apiKey)) then Some(old(nextId)) else None)
        && Snapshot() == AfterHandoff(old(Snapshot()), transcription)
      ensures entry.Some? ==> !HasId(old(messages), entry.value)
    {
      if Trim(transcription) == "" {
        return None;
      }
      if !KeyUsable(apiKey) {
        error := Some(MissingKeyError);
        isApiKeyModalOpen := true;
        return None;
      }
      isSummarizing := true;
      error := None;
      apiKeyError := None;
      var id := nextId;
      AppendFresh(messages, Message(id, transcription, ""), id);
      nextId := nextId + 1;
      messages := messages + [Message(id, transcription, "")];
      entry := Some(id);
    }

    /** The `catch` block of `handleSummarize` for the entry `id`: the entry
        is removed, and a message carrying the invalid-key marker drops the
        key from storage and memory and reopens the key dialog with it, while
        any other message is shown as a summary failure. */
    method Reject(id: nat, message: string)
      requires Valid()
      modifies this
      ensures Valid()
      ensures Includes(message, InvalidKeyMarker) ==>
        Snapshot() == WithApiKey(old(Snapshot()), None, speechSupported).(
          messages := Without(old(messages), id), storedKey := None,
          apiKeyError := Some(message), isApiKeyModalOpen := true)
      ensures !Includes(message, InvalidKeyMarker) ==>
        Snapshot() == old(Snapshot()).(
          messages := Without(old(messages), id), error := Some(SummaryError(message)))
    {
      WithoutKeepsUnique(messages, id);
      WithoutKeepsBelow(messages, id, nextId);
      if Includes(message, InvalidKeyMarker) {
        SetApiKey(None);
        ghost var keyed := Snapshot();
        assert keyed == WithApiKey(old(Snapshot()), None, speechSupported);
        messages := Without(messages, id);
        storedKey := None;
        apiKeyError := Some(message);
        isApiKeyModalOpen := true;
        assert Snapshot() == keyed.(messages := Without(old(messages), id), storedKey := None,
                                    apiKeyError := Some(message), isApiKeyModalOpen := true);
      } else {
        messages := Without(messages, id);
        error := Some(SummaryError(message));
      }
    }

    /** The part of `handleSummarize` that runs when the summarizer settles for
        the entry `id`. A summary goes into that entry alone; a failure goes
        to the `catch` block with the error's message. The shared busy flag is
        cleared either way. */
    method ResolveSummary(id: nat, outcome: SummaryOutcome)
      requires Valid()
      modifies this
      ensures Valid()
      ensures outcome.Summarized? ==>
        Snapshot() == old(Snapshot()).(
          messages := WithSummary(old(messages), id, outcome.summary), isSummarizing := false)
      ensures outcome.Rejected? && Includes(ErrorMessage(outcome.reason), InvalidKeyMarker) ==>
        Snapshot() == WithApiKey(old(Snapshot()), None, speechSupported).(
          messages := Without(old(messages), id), isSummarizing := false,
          storedKey := None, apiKeyError := Some(ErrorMessage(outcome.reason)),
          isApiKeyModalOpen := true)
      ensures outcome.Rejected? && !Includes(ErrorMessage(outcome.reason), InvalidKeyMarker) ==>
        Snapshot() == old(Snapshot()).(
          messages := Without(old(messages), id), isSummarizing := false,
          error := Some(SummaryError(ErrorMessage(outcome.reason))))
    {
      match outcome {
        case Summarized(summary) =>
          WithSummaryKeepsIds(messages, id, summary);
          messages := WithSummary(messages, id, summary);
        case Rejected(reason) =>
          Reject(id, ErrorMessage(reason));
      }
      isSummarizing := false;
    }

    /** `handleApiKeySave`: the key is stored and used, and the dialog closes. */
    method SaveApiKey(key: string)
      requires Valid()
      modifies this
      ensures Valid()
      ensures Snapshot() == WithApiKey(old(Snapshot()), Some(key), speechSupported).(
        storedKey := Some(key), isApiKeyModalOpen := false, apiKeyError := None)
    {
      SetApiKey(Some(key));
      storedKey := Some(key);
      isApiKeyModalOpen := false;
      apiKeyError := None;
    }
  }
}
