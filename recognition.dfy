/**
 * What the speech recognizer delivers to the `onresult` handler, and how the
 * handler turns it into finalized and interim text.
 */
module Recognition {

  /** One recognized segment, `event.results[i]`: the transcript of its top
      alternative (`[0].transcript`) and whether the engine has committed to it. */
  datatype Segment = Segment(transcript: string, isFinal: bool)

  /** A result event: the recognizer's whole result list and the index of the
      first segment that is new in this event. */
  datatype ResultEvent = ResultEvent(results: seq<Segment>, resultIndex: nat)

  /** The segments the handler's loop visits: those from `resultIndex` on
      (none when the index is past the end). */
  function Visited(ev: ResultEvent): seq<Segment> {
    if ev.resultIndex <= |ev.results| then ev.results[ev.resultIndex..] else []
  }

  /** The transcripts of the segments whose finality is `final`, in order. */
  function Pieces(segs: seq<Segment>, final: bool): seq<string> {
    if segs == [] then []
    else (if segs[0].isFinal == final then [segs[0].transcript] else []) + Pieces(segs[1..], final)
  }

  /** The strings of `ss` joined with no separator. */
  function Concat(ss: seq<string>): string {
    if ss == [] then "" else ss[0] + Concat(ss[1..])
  }

  /** The event's finalized chunk: its new final transcripts, back to back. */
  function FinalChunk(ev: ResultEvent): string {
    Concat(Pieces(Visited(ev), true))
  }

  /** The event's interim text: its new non-final transcripts, back to back. */
  function InterimText(ev: ResultEvent): string {
    Concat(Pieces(Visited(ev), false))
  }

  lemma {:induction false} PiecesAppend(a: seq<Segment>, b: seq<Segment>, final: bool)
    ensures Pieces(a + b, final) == Pieces(a, final) + Pieces(b, final)
  {
    if a == [] {
      assert a + b == b;
    } else {
      assert (a + b)[1..] == a[1..] + b;
      PiecesAppend(a[1..], b, final);
    }
  }

  lemma {:induction false} ConcatAppend(a: seq<string>, b: seq<string>)
    ensures Concat(a + b) == Concat(a) + Concat(b)
  {
    if a == [] {
      assert a + b == b;
    } else {
      assert (a + b)[1..] == a[1..] + b;
      ConcatAppend(a[1..], b);
    }
  }

  /** Every visited segment lands in exactly one of the two outputs: as many
      pieces as segments, the same transcripts counted with multiplicity, and
      so the same number of characters. */
  lemma {:induction false} PiecesPartition(segs: seq<Segment>)
    ensures |Pieces(segs, true)| + |Pieces(segs, false)| == |segs|
    ensures multiset(Pieces(segs, true)) + multiset(Pieces(segs, false)) == multiset(Transcripts(segs))
    ensures |Concat(Pieces(segs, true))| + |Concat(Pieces(segs, false))| == |Concat(Transcripts(segs))|
  {
    if segs != [] {
      PiecesPartition(segs[1..]);
      var x := segs[0].transcript;
      if segs[0].isFinal {
        ConcatAppend([x], Pieces(segs[1..], true));
        ConcatAppend([], Pieces(segs[1..], false));
      } else {
        ConcatAppend([], Pieces(segs[1..], true));
        ConcatAppend([x], Pieces(segs[1..], false));
      }
      ConcatAppend([x], Transcripts(segs[1..]));
    }
  }

  /** All transcripts, whatever their finality. */
  function Transcripts(segs: seq<Segment>): (r: seq<string>)
    ensures |r| == |segs|
    ensures forall i :: 0 <= i < |segs| ==> r[i] == segs[i].transcript
  {
    if segs == [] then [] else [segs[0].transcript] + Transcripts(segs[1..])
  }

  /** The `for` loop of the `onresult` handler: walks the results from
      `resultIndex` on and builds the finalized chunk and the interim text. */
  method FoldResults(ev: ResultEvent) returns (finalChunk: string, interim: string)
    ensures finalChunk == FinalChunk(ev)
    ensures interim == InterimText(ev)
  {
    finalChunk, interim := "", "";
    var i := ev.resultIndex;
    while i < |ev.results|
      invariant ev.resultIndex <= i
      invariant ev.resultIndex <= |ev.results| ==> i <= |ev.results|
      invariant ev.resultIndex <= |ev.results| ==>
        finalChunk == Concat(Pieces(ev.results[ev.resultIndex..i], true))
      invariant ev.resultIndex <= |ev.results| ==>
        interim == Concat(Pieces(ev.results[ev.resultIndex..i], false))
      invariant ev.resultIndex > |ev.results| ==> i == ev.resultIndex && finalChunk == "" && interim == ""
    {
      var seg := ev.results[i];
      ghost var done := ev.results[ev.resultIndex..i];
      assert ev.results[ev.resultIndex..i + 1] == done + [seg];
      PiecesAppend(done, [seg], true);
      PiecesAppend(done, [seg], false);
      ConcatAppend(Pieces(done, true), Pieces([seg], true));
      ConcatAppend(Pieces(done, false), Pieces([seg], false));
      if seg.isFinal {
        finalChunk := finalChunk + seg.transcript;
      } else {
        interim := interim + seg.transcript;
      }
      i := i + 1;
    }
    assert ev.resultIndex <= |ev.results| ==> ev.results[ev.resultIndex..i] == Visited(ev);
  }

  /** What one event does to the finalized transcript: a non-empty chunk is
      appended followed by one space; an empty chunk leaves it as it was. */
  function AppendChunk(finalized: string, chunk: string): (r: string)
    ensures finalized <= r
    ensures chunk == "" ==> r == finalized
    ensures chunk != "" ==> r[|finalized|..] == chunk + " "
  {
    if chunk == "" then finalized else finalized + chunk + " "
  }

  /** The finalized transcript after a run of result events, in delivery order. */
  function Accumulated(finalized: string, evs: seq<ResultEvent>): string
    decreases evs
  {
    if evs == [] then finalized
    else Accumulated(AppendChunk(finalized, FinalChunk(evs[0])), evs[1..])
  }

  /** The finalized transcript only grows: what was there stays as its prefix. */
  lemma {:induction false} AccumulatedExtends(finalized: string, evs: seq<ResultEvent>)
    ensures |finalized| <= |Accumulated(finalized, evs)|
    ensures Accumulated(finalized, evs)[..|finalized|] == finalized
    decreases evs
  {
    if evs != [] {
      var next := AppendChunk(finalized, FinalChunk(evs[0]));
      AccumulatedExtends(next, evs[1..]);
      assert next[..|finalized|] == finalized;
    }
  }

  /** Feeding two runs one after the other equals feeding their concatenation:
      an unsolicited restart between the runs, which leaves the finalized
      transcript alone, loses, repeats and reorders nothing. */
  lemma {:induction false} AccumulatedSplit(finalized: string, a: seq<ResultEvent>, b: seq<ResultEvent>)
    ensures Accumulated(finalized, a + b) == Accumulated(Accumulated(finalized, a), b)
    decreases a
  {
    if a == [] {
      assert a + b == b;
    } else {
      assert (a + b)[1..] == a[1..] + b;
      AccumulatedSplit(AppendChunk(finalized, FinalChunk(a[0])), a[1..], b);
    }
  }

  /** Every segment is final. */
  predicate AllFinal(segs: seq<Segment>) {
    forall i :: 0 <= i < |segs| ==> segs[i].isFinal
  }

  /** When every segment is final, the final pieces are all the transcripts. */
  lemma {:induction false} AllFinalPieces(segs: seq<Segment>)
    requires AllFinal(segs)
    ensures Pieces(segs, true) == Transcripts(segs)
  {
    if segs != [] {
      assert AllFinal(segs[1..]) by {
        forall i | 0 <= i < |segs[1..]| ensures segs[1..][i].isFinal {
          assert segs[1..][i] == segs[i + 1];
        }
      }
      AllFinalPieces(segs[1..]);
    }
  }

  /** The separator is per event, not per segment: the final segments of one
      event are joined with nothing between them, and one space follows. */
  lemma OneSeparatorPerEvent(finalized: string, ev: ResultEvent)
    requires AllFinal(Visited(ev)) && Concat(Transcripts(Visited(ev))) != ""
    ensures Accumulated(finalized, [ev]) == finalized + Concat(Transcripts(Visited(ev))) + " "
  {
    AllFinalPieces(Visited(ev));
    assert [ev][1..] == [];
  }
}
