/**
 * Runs of several handlers, proved from the handlers' contracts alone: what a
 * caller of the controller can count on across events.
 */
module Scenarios {
  import opened Wrappers
  import opened JsString
  import opened Recognition
  import opened NoteLog
  import opened Session

  /** Start, one result event, an unsolicited end, another result event, stop,
      end: the text handed off is the two events' text joined across the
      restart, trimmed. */
  method RecordAcrossRestart(app: App, e1: ResultEvent, e2: ResultEvent) returns (handoff: Option<string>)
    requires app.Valid() && KeyUsable(app.apiKey) && app.speechSupported && !app.isRecording && !app.listening
    modifies app
    ensures app.Valid() && !app.isRecording && !app.listening
    ensures handoff == (if Trim(Accumulated("", [e1, e2])) == "" then None
                        else Some(Trim(Accumulated("", [e1, e2]))))
    ensures handoff.Some? ==> app.currentTranscript == "" && app.interimTranscript == ""
  {
    var call := app.ToggleRecording(false);
    assert app.Valid() && app.isRecording && KeyUsable(app.apiKey) && app.currentTranscript == "";
    app.OnResult(e1);
    ghost var afterFirst := app.currentTranscript;
    assert afterFirst == AppendChunk("", FinalChunk(e1));
    assert app.isRecording && KeyUsable(app.apiKey);
    var restart, restarted, pending := app.OnEnd(false);
    assert restart == StartCall && restarted == None && app.currentTranscript == afterFirst;
    assert app.isRecording && KeyUsable(app.apiKey);
    app.OnResult(e2);
    assert app.currentTranscript == AppendChunk(afterFirst, FinalChunk(e2));
    assert app.isRecording && KeyUsable(app.apiKey);
    call := app.ToggleRecording(false);
    assert !app.isRecording && app.currentTranscript == AppendChunk(afterFirst, FinalChunk(e2));
    assert [e1, e2][1..] == [e2] && [e2][1..] == [];
    assert Accumulated("", [e1, e2]) == Accumulated(afterFirst, [e2]);
    assert Accumulated(afterFirst, [e2]) == AppendChunk(afterFirst, FinalChunk(e2));
    restart, handoff, pending := app.OnEnd(false);
  }

  /** A recognition error followed by the end event the browser sends after
      it: the finalized text is still handed off, and the handoff, which
      always finds a key, clears the recognition error it came after. */
  method ErrorThenEnd(app: App, code: string) returns (handoff: Option<string>)
    requires app.Valid() && app.isRecording && app.listening
    modifies app
    ensures app.Valid() && !app.isRecording && !app.listening
    ensures handoff == (if Trim(old(app.currentTranscript)) == "" then None
                        else Some(Trim(old(app.currentTranscript))))
    ensures app.error == (if handoff == None then Some(RecognitionError(code)) else None)
  {
    app.OnError(code);
    var call, entry;
    call, handoff, entry := app.OnEnd(false);
  }

  /** Two handoffs in flight whose results arrive in the opposite order: each
      entry ends up with its own summary, in the order the entries were made. */
  method OverlappingHandoffs(app: App, t1: string, t2: string, s1: string, s2: string)
    requires app.Valid() && KeyUsable(app.apiKey)
    requires Trim(t1) != "" && Trim(t2) != ""
    modifies app
    ensures app.Valid()
    ensures app.messages == old(app.messages)
      + [Message(old(app.nextId), t1, s1), Message(old(app.nextId) + 1, t2, s2)]
  {
    ghost var log := app.messages;
    ghost var m1, m2 := Message(app.nextId, t1, ""), Message(app.nextId + 1, t2, "");
    var first := app.HandleSummarize(t1);
    assert first == Some(m1.id) && app.messages == log + [m1] && KeyUsable(app.apiKey);
    var second := app.HandleSummarize(t2);
    assert second == Some(m2.id) && app.messages == (log + [m1]) + [m2];
    ResolvedInReverse(log, m1, m2, s1, s2);
    app.ResolveSummary(second.value, Summarized(s2));
    app.ResolveSummary(first.value, Summarized(s1));
  }

  /** A handoff rejected for its key: the pending entry is gone again, the key
      is dropped from memory and storage, and the key dialog is open. */
  method RejectedKey(app: App, t: string)
    requires app.Valid() && KeyUsable(app.apiKey) && Trim(t) != ""
    modifies app
    ensures app.Valid()
    ensures app.messages == old(app.messages)
    ensures app.apiKey == None && app.storedKey == None && app.isApiKeyModalOpen
    ensures app.apiKeyError == Some(ServiceInvalidKeyMessage) && !app.isSummarizing
  {
    var entry := app.HandleSummarize(t);
    ServiceInvalidKeyIsRecognized();
    AppendThenRemove(old(app.messages), Message(entry.value, t, ""));
    app.ResolveSummary(entry.value, Rejected(ErrorObject(ServiceInvalidKeyMessage)));
  }

  /** A key rejected while recording, a new key saved, then stop and start:
      the key change replaced the running recognizer by one nobody started,
      so the stop gets no end event and the transcript is never handed off;
      the next start clears it. The log only loses the rejected entry. */
  method KeyChangeStrandsTranscript(app: App, id: nat, key: string)
    requires app.Valid() && app.isRecording && app.listening && key != ""
    modifies app
    ensures app.Valid() && app.isRecording && app.listening
    ensures app.currentTranscript == "" && app.messages == Without(old(app.messages), id)
  {
    ghost var text := app.currentTranscript;
    ServiceInvalidKeyIsRecognized();
    app.ResolveSummary(id, Rejected(ErrorObject(ServiceInvalidKeyMessage)));
    app.SaveApiKey(key);
    assert app.isRecording && !app.listening && app.currentTranscript == text;
    var call := app.ToggleRecording(false);
    // No recognizer is listening, so no end event can hand `text` off.
    assert call == StopCall && !app.listening && app.currentTranscript == text;
    call := app.ToggleRecording(false);
  }
}
