/**
 * The conversation log: the ordered list of notes the app shows, each a
 * transcription and the summary that came back for it.
 */
module NoteLog {

  /** One log entry. `id` stands for the `Date.now()` value the source stamps
      on the entry; the `timestamp` field is display-only and is not modelled. */
  datatype Message = Message(id: nat, transcription: string, summary: string)

  /** The entry with this id is in the log. */
  predicate HasId(log: seq<Message>, id: nat) {
    exists i | 0 <= i < |log| :: log[i].id == id
  }

  /** No two entries share an id. */
  predicate UniqueIds(log: seq<Message>) {
    forall i, j | 0 <= i < j < |log| :: log[i].id != log[j].id
  }

  /** Every id is below `n`: `n` is fresh for the log. */
  predicate IdsBelow(log: seq<Message>, n: nat) {
    forall i | 0 <= i < |log| :: log[i].id < n
  }

  /** Appending an entry stamped with a fresh id keeps the ids unique. */
  lemma AppendFresh(log: seq<Message>, m: Message, n: nat)
    requires UniqueIds(log) && IdsBelow(log, n) && m.id == n
    ensures !HasId(log, n)
    ensures UniqueIds(log + [m]) && IdsBelow(log + [m], n + 1)
  {
    var r := log + [m];
    forall i, j | 0 <= i < j < |r| ensures r[i].id != r[j].id {
      assert r[i] == log[i];
    }
  }

  /** `prev.map(msg => msg.id === id ? { ...msg, summary } : msg)`: the entries
      that carry `id` get the new summary, every other entry is kept as it was,
      and the positions stay put. */
  function WithSummary(log: seq<Message>, id: nat, summary: string): (r: seq<Message>)
    ensures |r| == |log|
    ensures forall i | 0 <= i < |log| ::
      r[i] == if log[i].id == id then log[i].(summary := summary) else log[i]
  {
    if log == [] then []
    else [if log[0].id == id then log[0].(summary := summary) else log[0]]
         + WithSummary(log[1..], id, summary)
  }

  /** `prev.filter(msg => msg.id !== id)`: exactly the entries that do not
      carry `id` survive. */
  function Without(log: seq<Message>, id: nat): (r: seq<Message>)
    ensures |r| <= |log|
    ensures !HasId(r, id)
  {
    if log == [] then []
    else (if log[0].id == id then [] else [log[0]]) + Without(log[1..], id)
  }

  /** The entries that survive the filter are exactly those of the log that
      do not carry `id`. */
  lemma {:induction false} WithoutMembers(log: seq<Message>, id: nat)
    ensures forall m :: m in Without(log, id) <==> m in log && m.id != id
  {
    if log != [] {
      WithoutMembers(log[1..], id);
      assert log == [log[0]] + log[1..];
    }
  }

  /** Filtering keeps order: filtering a concatenation filters each part. */
  lemma {:induction false} WithoutAppend(a: seq<Message>, b: seq<Message>, id: nat)
    ensures Without(a + b, id) == Without(a, id) + Without(b, id)
  {
    if a == [] {
      assert a + b == b;
    } else {
      assert (a + b)[1..] == a[1..] + b;
      WithoutAppend(a[1..], b, id);
    }
  }

  /** A log in which no entry carries `id` is left as it is. */
  lemma {:induction false} WithoutAbsent(log: seq<Message>, id: nat)
    requires !HasId(log, id)
    ensures Without(log, id) == log
  {
    if log != [] {
      assert !HasId(log[1..], id) by {
        forall i | 0 <= i < |log[1..]| ensures log[1..][i].id != id {
          assert log[1..][i] == log[i + 1];
        }
      }
      WithoutAbsent(log[1..], id);
      assert log == [log[0]] + log[1..];
    }
  }

  /** With unique ids, the id at position `i` occurs nowhere before or after it. */
  lemma IdOnlyAt(log: seq<Message>, i: nat)
    requires UniqueIds(log) && i < |log|
    ensures !HasId(log[..i], log[i].id) && !HasId(log[i + 1..], log[i].id)
  {
    var before, after := log[..i], log[i + 1..];
    forall k | 0 <= k < |before| ensures before[k].id != log[i].id {
      assert before[k] == log[k];
    }
    forall k | 0 <= k < |after| ensures after[k].id != log[i].id {
      assert after[k] == log[i + 1 + k];
    }
  }

  /** Removing an id that only the middle entry carries leaves the entries
      on either side of it. */
  lemma WithoutMiddle(before: seq<Message>, x: Message, after: seq<Message>)
    requires !HasId(before, x.id) && !HasId(after, x.id)
    ensures Without(before + [x] + after, x.id) == before + after
  {
    var id := x.id;
    assert Without([x], id) == [] by {
      assert [x][1..] == [];
    }
    WithoutAbsent(before, id);
    WithoutAbsent(after, id);
    WithoutAppend(before, [x], id);
    assert Without(before + [x], id) == before;
    WithoutAppend(before + [x], after, id);
  }

  /** With unique ids, removing the entry at position `i` by its id leaves the
      entries before it and after it, in their order. */
  lemma WithoutAt(log: seq<Message>, i: nat)
    requires UniqueIds(log) && i < |log|
    ensures Without(log, log[i].id) == log[..i] + log[i + 1..]
  {
    IdOnlyAt(log, i);
    assert log == log[..i] + [log[i]] + log[i + 1..];
    WithoutMiddle(log[..i], log[i], log[i + 1..]);
  }

  /** An entry whose id no entry of `rest` carries can go in front. */
  lemma ConsUnique(x: Message, rest: seq<Message>)
    requires UniqueIds(rest) && !HasId(rest, x.id)
    ensures UniqueIds([x] + rest)
  {
    var r := [x] + rest;
    forall a, b | 0 <= a < b < |r| ensures r[a].id != r[b].id {
      assert r[b] == rest[b - 1];
      if 0 < a {
        assert r[a] == rest[a - 1];
      }
    }
  }

  /** The tail of a log with unique ids has unique ids and lacks the head's id. */
  lemma TailUnique(log: seq<Message>)
    requires UniqueIds(log) && log != []
    ensures UniqueIds(log[1..]) && !HasId(log[1..], log[0].id)
  {
    var tail := log[1..];
    forall a, b | 0 <= a < b < |tail| ensures tail[a].id != tail[b].id {
      assert tail[a] == log[a + 1] && tail[b] == log[b + 1];
    }
    forall k | 0 <= k < |tail| ensures tail[k].id != log[0].id {
      assert tail[k] == log[k + 1];
    }
  }

  /** Filtering out an id keeps the ids unique. */
  lemma {:induction false} WithoutKeepsUnique(log: seq<Message>, id: nat)
    requires UniqueIds(log)
    ensures UniqueIds(Without(log, id))
  {
    if log != [] {
      var rest := Without(log[1..], id);
      TailUnique(log);
      WithoutKeepsUnique(log[1..], id);
      if log[0].id != id {
        WithoutMembers(log[1..], id);
        assert !HasId(rest, log[0].id) by {
          forall k | 0 <= k < |rest| ensures rest[k].id != log[0].id {
            assert rest[k] in log[1..];
          }
        }
        ConsUnique(log[0], rest);
      } else {
        assert Without(log, id) == rest;
      }
    }
  }

  /** Filtering keeps the ids below a bound. */
  lemma WithoutKeepsBelow(log: seq<Message>, id: nat, n: nat)
    requires IdsBelow(log, n)
    ensures IdsBelow(Without(log, id), n)
  {
    var r := Without(log, id);
    WithoutMembers(log, id);
    forall i | 0 <= i < |r| ensures r[i].id < n {
      assert r[i] in log;
    }
  }

  /** The map keeps every id at its position, so unique ids stay unique. */
  lemma WithSummaryKeepsIds(log: seq<Message>, id: nat, summary: string)
    ensures forall i | 0 <= i < |log| :: WithSummary(log, id, summary)[i].id == log[i].id
    ensures UniqueIds(log) ==> UniqueIds(WithSummary(log, id, summary))
    ensures forall n: nat :: IdsBelow(log, n) ==> IdsBelow(WithSummary(log, id, summary), n)
  {
  }

  /** With unique ids, the map updates the one entry at position `i` and
      nothing else. */
  lemma WithSummaryAt(log: seq<Message>, i: nat, summary: string)
    requires UniqueIds(log) && i < |log|
    ensures WithSummary(log, log[i].id, summary) == log[i := log[i].(summary := summary)]
  {
  }

  /** An id that no entry carries leaves the log as it is. */
  lemma WithSummaryAbsent(log: seq<Message>, id: nat, summary: string)
    requires !HasId(log, id)
    ensures WithSummary(log, id, summary) == log
  {
  }

  /** A pending entry appended with a fresh id and then resolved ends up as
      the same entry, at the same place, carrying the summary. */
  lemma AppendThenResolve(log: seq<Message>, m: Message, summary: string)
    requires !HasId(log, m.id)
    ensures WithSummary(log + [m], m.id, summary) == log + [m.(summary := summary)]
  {
    WithSummaryAbsent(log, m.id, summary);
  }

  /** The map works entry by entry, so it distributes over concatenation. */
  lemma WithSummaryAppend(a: seq<Message>, b: seq<Message>, id: nat, summary: string)
    ensures WithSummary(a + b, id, summary) == WithSummary(a, id, summary) + WithSummary(b, id, summary)
  {
  }

  /** Two pending entries appended with fresh ids and resolved newest first
      end up in creation order, each with its own summary. */
  lemma ResolvedInReverse(log: seq<Message>, m1: Message, m2: Message, s1: string, s2: string)
    requires !HasId(log, m1.id) && !HasId(log, m2.id) && m1.id != m2.id
    ensures WithSummary(WithSummary((log + [m1]) + [m2], m2.id, s2), m1.id, s1)
         == log + [m1.(summary := s1), m2.(summary := s2)]
  {
    AppendThenResolve(log + [m1], m2, s2);
    WithSummaryAppend(log + [m1], [m2.(summary := s2)], m1.id, s1);
    AppendThenResolve(log, m1, s1);
  }

  /** A pending entry appended with a fresh id and then removed on failure
      leaves no trace: the log is what it was before. */
  lemma AppendThenRemove(log: seq<Message>, m: Message)
    requires !HasId(log, m.id)
    ensures Without(log + [m], m.id) == log
  {
    WithoutAppend(log, [m], m.id);
    WithoutAbsent(log, m.id);
    assert [m][1..] == [];
  }

  /** Entries stamped with the same `Date.now()` value: when two entries of
      the log share a stamp, the summary for either lands in both, and one
      failure removes both, whatever else the log holds (an older entry with
      that stamp included). */
  lemma SameStampCrossTalk(log: seq<Message>, now: nat, a: string, b: string, summary: string)
    ensures WithSummary(log + [Message(now, a, "")] + [Message(now, b, "")], now, summary)
         == WithSummary(log, now, summary) + [Message(now, a, summary), Message(now, b, summary)]
    ensures Without(log + [Message(now, a, "")] + [Message(now, b, "")], now) == Without(log, now)
  {
    var pair := [Message(now, a, ""), Message(now, b, "")];
    assert log + [Message(now, a, "")] + [Message(now, b, "")] == log + pair;
    WithSummaryAppend(log, pair, now, summary);
    WithoutAppend(log, pair, now);
    assert pair[1..][1..] == [];
  }

  /** Two resolutions for different entries commute: overlapping handoffs
      reach the same log whatever order their results arrive in. */
  lemma ResolutionsCommute(log: seq<Message>, a: nat, x: string, b: nat, y: string)
    requires a != b
    ensures WithSummary(WithSummary(log, a, x), b, y) == WithSummary(WithSummary(log, b, y), a, x)
  {
  }

  /** A failure for one entry and a success for another commute as well. */
  lemma {:induction false} RemovalAndResolutionCommute(log: seq<Message>, a: nat, b: nat, y: string)
    requires a != b
    ensures Without(WithSummary(log, b, y), a) == WithSummary(Without(log, a), b, y)
  {
    if log != [] {
      assert WithSummary(log, b, y)[1..] == WithSummary(log[1..], b, y);
      RemovalAndResolutionCommute(log[1..], a, b, y);
    }
  }

  /** Two failures commute. */
  lemma {:induction false} RemovalsCommute(log: seq<Message>, a: nat, b: nat)
    ensures Without(Without(log, a), b) == Without(Without(log, b), a)
  {
    if log != [] {
      var x := log[0];
      RemovalsCommute(log[1..], a, b);
      WithoutAppend(if x.id == a then [] else [x], Without(log[1..], a), b);
      WithoutAppend(if x.id == b then [] else [x], Without(log[1..], b), a);
      assert [x][1..] == [];
    }
  }
}
