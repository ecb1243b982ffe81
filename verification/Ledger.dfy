/**
 The records the kernel keeps about tool calls - the calls it recorded, the
 transcript, and the guard's pending calls - taken together, with the laws that
 every way of updating them keeps.
 */
module Ledger {
  import opened Common
  import opened PairingGuard
  import opened Transcript
  import opened Doubles

  /**
   `silent` are the recorded calls whose tool_call entry is not written yet,
   `superseded` the ids of results that an error result for the same call followed;
   `steady` says that serialising a value again has the same outcome.
   */
  datatype Books = Books(toolCalls: seq<ToolRequest>, transcript: seq<Entry>, pending: seq<ToolRequest>,
                         silent: seq<ToolRequest>, superseded: seq<string>, steady: bool)

  function ResultEntries(results: seq<ToolResult>): (entries: seq<Entry>)
    ensures |entries| == |results|
  {
    seq(|results|, i requires 0 <= i < |results| => ToolResultEntry(results[i]))
  }

  function DropAll(pending: seq<ToolRequest>, results: seq<ToolResult>): seq<ToolRequest> {
    if results == [] then pending
    else Drop(DropAll(pending, results[..|results| - 1]), results[|results| - 1].toolCallId)
  }

  /** Accept some results: record them and stop waiting for their calls. */
  function Answer(b: Books, results: seq<ToolResult>): Books {
    b.(transcript := b.transcript + ResultEntries(results), pending := DropAll(b.pending, results))
  }

  function Record(b: Books, e: Entry): Books {
    b.(transcript := b.transcript + [e])
  }

  function Track(b: Books, requests: seq<ToolRequest>): Books {
    b.(toolCalls := b.toolCalls + requests, pending := PutAll(b.pending, requests), silent := b.silent + requests)
  }

  /** Write the entry of the next silent call. */
  function Voice(b: Books): Books
    requires b.silent != []
  {
    b.(transcript := b.transcript + [ToolCallEntry(b.silent[0])], silent := b.silent[1..])
  }

  function Flush(b: Books, reason: string): Books {
    b.(transcript := b.transcript + ResultEntries(MissingAll(b.pending, reason)), pending := [])
  }

  /** Accept a result that cannot be merged, and the error result that replaces it. */
  function Redo(b: Books, first: ToolResult, failure: Thrown, second: ToolResult): Books {
    b.(transcript := b.transcript + [ToolResultEntry(first, Some(failure)), ToolResultEntry(second)],
       pending := Drop(Drop(b.pending, first.toolCallId), second.toolCallId),
       superseded := b.superseded + [first.toolCallId])
  }

  // ------------------------------------------------------------------- laws

  /** Every recorded call has a result or is still waited for. */
  ghost predicate Covered(b: Books) {
    forall r {:trigger HasAnswer(b, r)} :: r in b.toolCalls ==> HasAnswer(b, r)
  }

  ghost predicate HasAnswer(b: Books, r: ToolRequest) {
    r.toolCallId in ResultIds(b.transcript) || r.toolCallId in Ids(b.pending)
  }

  /** The announced calls and the silent ones are the recorded ones, in order; superseded results are known. */
  ghost predicate Recorded(b: Books) {
    Calls(b.transcript) + b.silent == b.toolCalls && SupersededIds(b.transcript) == b.superseded
  }

  /** What holds whatever the environment answers. */
  ghost predicate Kept(b: Books) {
    forall n {:trigger Open(n)} :: Open(n) ==>
      Covered(b) && Recorded(b) && (b.steady ==> NoneShown(b.transcript))
  }

  /** Conservation, for every id. */
  ghost predicate Conserved(b: Books) {
    forall id {:trigger Balances(b, id)} :: Balances(b, id)
  }

  /**
   As many results, and calls still waited for, as recorded calls and superseded
   results; an id is waited for once and superseded only if it was recorded.
   */
  ghost predicate Balances(b: Books, id: string) {
    && multiset(ResultIds(b.transcript))[id] + multiset(Ids(b.pending))[id]
        == multiset(Ids(b.toolCalls))[id] + multiset(b.superseded)[id]
    && multiset(Ids(b.pending))[id] <= 1
    && (id in b.superseded ==> id in Ids(b.toolCalls))
  }

  /** The same for all ids together. */
  ghost predicate Conserves(b: Books) {
    && Distinct(Ids(b.pending))
    && multiset(ResultIds(b.transcript)) + multiset(Ids(b.pending))
        == multiset(Ids(b.toolCalls)) + multiset(b.superseded)
    && (forall id :: id in b.superseded ==> id in Ids(b.toolCalls))
  }

  lemma ConservedMeans(b: Books)
    ensures Conserved(b) <==> Conserves(b)
  {
    if Conserves(b) {
      forall id ensures Balances(b, id) {
        DistinctCounts(Ids(b.pending), id);
        assert (multiset(ResultIds(b.transcript)) + multiset(Ids(b.pending)))[id]
            == (multiset(Ids(b.toolCalls)) + multiset(b.superseded))[id];
      }
    }
    if Conserved(b) {
      forall id
        ensures (multiset(ResultIds(b.transcript)) + multiset(Ids(b.pending)))[id]
                  == (multiset(Ids(b.toolCalls)) + multiset(b.superseded))[id]
        ensures multiset(Ids(b.pending))[id] <= 1 && (id in b.superseded ==> id in Ids(b.toolCalls))
      {
        assert Balances(b, id);
      }
      CountsAreDistinct(Ids(b.pending));
    }
  }

  /** The calls the transcript leaves open, superseded results aside, are the calls waited for. */
  ghost predicate Paired(b: Books) {
    forall n {:trigger Open(n)} :: Open(n) ==> ScanTranscript(b.transcript) == Outstanding(multiset(Ids(b.pending)))
  }

  /** The transcript leaves calls open, or strays. */
  ghost predicate Unpaired(b: Books) {
    forall n {:trigger Open(n)} :: Open(n) ==> ScanTranscript(b.transcript) != Outstanding(multiset{})
  }

  /** What an honest environment keeps even after a reply whose calls were never tracked. */
  ghost predicate Sane(b: Books) {
    forall n {:trigger Open(n)} :: Open(n) ==> Conserved(b) && DoublesOk(b.transcript) && RequestsExact(b.transcript)
  }

  ghost predicate Sound(b: Books) {
    Sane(b) && Paired(b)
  }

  // ---------------------------------------------------------- results, in general

  lemma {:induction false} ResultIdsOfResults(transcript: seq<Entry>, results: seq<ToolResult>)
    ensures ResultIds(transcript + ResultEntries(results)) == ResultIds(transcript) + ResultKeys(results)
  {
    if results == [] {
      assert transcript + ResultEntries(results) == transcript;
    } else {
      var init, last := results[..|results| - 1], results[|results| - 1];
      ResultIdsOfResults(transcript, init);
      SplitLast(results, transcript);
      ResultIdsAppend(transcript + ResultEntries(init), ToolResultEntry(last));
    }
  }

  lemma {:induction false} CallsOfResults(transcript: seq<Entry>, results: seq<ToolResult>)
    ensures Calls(transcript + ResultEntries(results)) == Calls(transcript)
    ensures SupersededIds(transcript + ResultEntries(results)) == SupersededIds(transcript)
  {
    if results == [] {
      assert transcript + ResultEntries(results) == transcript;
    } else {
      var init, last := results[..|results| - 1], results[|results| - 1];
      CallsOfResults(transcript, init);
      SplitLast(results, transcript);
      CallsAppend(transcript + ResultEntries(init), ToolResultEntry(last));
    }
  }

  lemma {:induction false} DropAllCovers(pending: seq<ToolRequest>, results: seq<ToolResult>, x: string)
    requires x in Ids(pending)
    ensures x in Ids(DropAll(pending, results)) || x in ResultKeys(results)
  {
    if results != [] {
      var init, last := results[..|results| - 1], results[|results| - 1];
      DropAllCovers(pending, init, x);
      DropCovers(DropAll(pending, init), last.toolCallId);
      assert ResultKeys(results) == ResultKeys(init) + [last.toolCallId];
    }
  }

  lemma AnswerTwice(b: Books, results: seq<ToolResult>, result: ToolResult)
    ensures Answer(Answer(b, results), [result]) == Answer(b, results + [result])
  {
    var all := results + [result];
    assert all[..|results|] == results;
    assert [result][..0] == [];
    assert DropAll(DropAll(b.pending, results), [result]) == Drop(DropAll(b.pending, results), result.toolCallId);
    assert b.transcript + ResultEntries(results) + ResultEntries([result]) == b.transcript + ResultEntries(all);
  }

  lemma AnswerOne(b: Books, result: ToolResult)
    ensures Answer(b, [result])
         == b.(transcript := b.transcript + [ToolResultEntry(result)], pending := Drop(b.pending, result.toolCallId))
  {
    assert [result][..0] == [];
    assert DropAll(b.pending, []) == b.pending;
    assert ResultEntries([result]) == [ToolResultEntry(result)];
  }

  lemma AnswerNone(b: Books)
    ensures Answer(b, []) == b
  {
    assert b.transcript + ResultEntries([]) == b.transcript;
  }

  /** `b` is `base` with the first `n` results accepted. */
  ghost predicate AnsweredUpTo(base: Books, results: seq<ToolResult>, n: nat, b: Books)
    requires n <= |results|
  {
    forall k {:trigger Open(k)} :: Open(k) ==> b == Answer(base, results[..n])
  }

  lemma AnsweredNext(base: Books, results: seq<ToolResult>, n: nat, b: Books)
    requires n < |results| && AnsweredUpTo(base, results, n, b)
    ensures AnsweredUpTo(base, results, n + 1, Answer(b, [results[n]]))
  {
    assert Open(0);
    AnswerTwice(base, results[..n], results[n]);
    assert results[..n + 1] == results[..n] + [results[n]];
  }

  lemma AnsweredStart(base: Books, results: seq<ToolResult>)
    ensures AnsweredUpTo(base, results, 0, base)
  {
    AnswerNone(base);
  }

  /** Whatever is answered, and under whatever id, no recorded call is lost. */
  lemma AnswerCovers(b: Books, results: seq<ToolResult>)
    requires Kept(b)
    ensures Kept(Answer(b, results))
  {
    assert Open(0);
    if b.steady {
      NoneShownExtend(b.transcript, ResultEntries(results));
    }
    ResultIdsOfResults(b.transcript, results);
    CallsOfResults(b.transcript, results);
    forall r | r in b.toolCalls
      ensures HasAnswer(Answer(b, results), r)
    {
      assert HasAnswer(b, r);
      if r.toolCallId in Ids(b.pending) {
        DropAllCovers(b.pending, results, r.toolCallId);
      }
    }
  }

  lemma FlushCovers(b: Books, reason: string)
    requires Kept(b)
    ensures Kept(Flush(b, reason))
  {
    assert Open(0);
    if b.steady {
      NoneShownExtend(b.transcript, ResultEntries(MissingAll(b.pending, reason)));
    }
    ResultIdsOfResults(b.transcript, MissingAll(b.pending, reason));
    CallsOfResults(b.transcript, MissingAll(b.pending, reason));
    forall r | r in b.toolCalls
      ensures HasAnswer(Flush(b, reason), r)
    {
      assert HasAnswer(b, r);
    }
  }

  lemma PlainEntry(t: seq<Entry>, e: Entry)
    requires !e.ToolCallEntry? && !IsSuperseded(e)
    ensures Calls(t + [e]) == Calls(t) && SupersededIds(t + [e]) == SupersededIds(t)
    ensures forall id :: id in ResultIds(t) ==> id in ResultIds(t + [e])
  {
    ResultIdsAppend(t, e);
    CallsAppend(t, e);
  }

  lemma EntryCovers(b: Books, e: Entry)
    requires Covered(b) && Recorded(b) && !e.ToolCallEntry? && !IsSuperseded(e)
    ensures Covered(Record(b, e)) && Recorded(Record(b, e))
  {
    PlainEntry(b.transcript, e);
    forall r | r in b.toolCalls
      ensures HasAnswer(Record(b, e), r)
    {
      assert HasAnswer(b, r);
    }
  }

  lemma RecordCovers(b: Books, e: Entry)
    requires Kept(b) && !e.ToolCallEntry? && !IsSuperseded(e) && !e.LlmRequest?
    ensures Kept(Record(b, e))
  {
    assert Open(0);
    EntryCovers(b, e);
    if b.steady {
      NoneShownExtend(b.transcript, [e]);
    }
  }

  /** A request may be recorded if it shows no superseded result, or if it need not be so. */
  lemma RequestCovers(b: Books, messages: seq<Message>)
    requires Kept(b) && (b.steady ==> !ShowsDouble(b.transcript, messages))
    ensures Kept(Record(b, LlmRequest(messages)))
  {
    assert Open(0);
    EntryCovers(b, LlmRequest(messages));
    if b.steady {
      NoneShownRecord(b.transcript, messages);
    }
  }

  lemma VoiceCovers(b: Books)
    requires Kept(b) && b.silent != []
    ensures Kept(Voice(b))
  {
    assert Open(0);
    if b.steady {
      NoneShownExtend(b.transcript, [ToolCallEntry(b.silent[0])]);
    }
    var e := ToolCallEntry(b.silent[0]);
    ResultIdsAppend(b.transcript, e);
    CallsAppend(b.transcript, e);
    assert b.silent == [b.silent[0]] + b.silent[1..];
    forall r | r in b.toolCalls
      ensures HasAnswer(Voice(b), r)
    {
      assert HasAnswer(b, r);
    }
  }

  lemma TrackCovers(b: Books, requests: seq<ToolRequest>)
    requires Kept(b)
    ensures Kept(Track(b, requests))
  {
    assert Open(0);
    PutAllCovers(b.pending, requests);
    forall r | r in b.toolCalls + requests
      ensures HasAnswer(Track(b, requests), r)
    {
      if r in b.toolCalls {
        assert HasAnswer(b, r);
      } else {
        var i :| 0 <= i < |requests| && requests[i] == r;
        assert Ids(requests)[i] == r.toolCallId;
      }
    }
  }

  lemma RedoEntries(t: seq<Entry>, first: ToolResult, failure: Thrown, second: ToolResult)
    ensures var t' := t + [ToolResultEntry(first, Some(failure)), ToolResultEntry(second)];
            && ResultIds(t') == ResultIds(t) + [first.toolCallId, second.toolCallId]
            && Calls(t') == Calls(t) && SupersededIds(t') == SupersededIds(t) + [first.toolCallId]
            && ScanTranscript(t') == Settle(ScanTranscript(t), second.toolCallId)
  {
    var t1 := t + [ToolResultEntry(first, Some(failure))];
    assert t + [ToolResultEntry(first, Some(failure)), ToolResultEntry(second)] == t1 + [ToolResultEntry(second)];
    ResultIdsAppend(t, ToolResultEntry(first, Some(failure)));
    ResultIdsAppend(t1, ToolResultEntry(second));
    CallsAppend(t, ToolResultEntry(first, Some(failure)));
    CallsAppend(t1, ToolResultEntry(second));
    ScanAppend(t, ToolResultEntry(first, Some(failure)));
    ScanAppend(t1, ToolResultEntry(second));
  }

  lemma RedoCovers(b: Books, first: ToolResult, failure: Thrown, second: ToolResult)
    requires Kept(b)
    ensures Kept(Redo(b, first, failure, second))
  {
    assert Open(0);
    if b.steady {
      NoneShownExtend(b.transcript, [ToolResultEntry(first, Some(failure)), ToolResultEntry(second)]);
    }
    RedoEntries(b.transcript, first, failure, second);
    DropCovers(b.pending, first.toolCallId);
    DropCovers(Drop(b.pending, first.toolCallId), second.toolCallId);
    forall r | r in b.toolCalls
      ensures HasAnswer(Redo(b, first, failure, second), r)
    {
      assert HasAnswer(b, r);
    }
  }

  // ------------------------------------------------------- results for waiting calls

  lemma {:induction false} DropAllMiddle(before: seq<ToolRequest>, answered: seq<ToolRequest>, after: seq<ToolRequest>,
                                         results: seq<ToolResult>)
    requires Distinct(Ids(before + answered + after))
    requires ResultKeys(results) == Ids(answered)
    ensures DropAll(before + answered + after, results) == before + after
    ensures Distinct(Ids(before + after))
    ensures multiset(Ids(before + answered + after)) == multiset(Ids(before + after)) + multiset(ResultKeys(results))
    decreases |results|
  {
    if results == [] {
      assert answered == [] && before + answered + after == before + after;
      assert ResultKeys(results) == [];
    } else {
      var n := |results| - 1;
      var init, last := answered[..n], answered[n];
      var shifted := [last] + after;
      assert before + answered + after == before + init + shifted;
      assert ResultKeys(results[..n]) == ResultKeys(results)[..n] == Ids(init);
      DropAllMiddle(before, init, shifted, results[..n]);
      assert before + shifted == before + [last] + after;
      assert ResultKeys(results)[n] == results[n].toolCallId == last.toolCallId;
      DropOne(before, last, after);
      assert ResultKeys(results) == ResultKeys(results[..n]) + [last.toolCallId];
    }
  }

  lemma ShiftIn(rest: multiset<string>, ids: seq<string>, id: string)
    ensures rest + multiset(ids + [id]) == (rest + multiset{id}) + multiset(ids)
    ensures rest + multiset{id} - multiset{id} == rest
  {
  }

  lemma ScanResult(transcript: seq<Entry>, result: ToolResult, rest: multiset<string>)
    requires ScanTranscript(transcript) == Outstanding(rest + multiset{result.toolCallId})
    ensures ScanTranscript(transcript + [ToolResultEntry(result)]) == Outstanding(rest)
  {
    ScanAppend(transcript, ToolResultEntry(result));
    ShiftIn(rest, [], result.toolCallId);
  }

  lemma SplitLast(results: seq<ToolResult>, transcript: seq<Entry>)
    requires results != []
    ensures var init, last := results[..|results| - 1], results[|results| - 1];
            && ResultKeys(results) == ResultKeys(init) + [last.toolCallId]
            && transcript + ResultEntries(results) == (transcript + ResultEntries(init)) + [ToolResultEntry(last)]
  {
  }

  lemma {:induction false} ScanResults(transcript: seq<Entry>, results: seq<ToolResult>, rest: multiset<string>)
    requires ScanTranscript(transcript) == Outstanding(rest + multiset(ResultKeys(results)))
    ensures ScanTranscript(transcript + ResultEntries(results)) == Outstanding(rest)
    decreases |results|
  {
    if results == [] {
      assert transcript + ResultEntries(results) == transcript;
      assert rest + multiset{} == rest;
    } else {
      var init, last := results[..|results| - 1], results[|results| - 1];
      SplitLast(results, transcript);
      ShiftIn(rest, ResultKeys(init), last.toolCallId);
      ScanResults(transcript, init, rest + multiset{last.toolCallId});
      ScanResult(transcript + ResultEntries(init), last, rest);
    }
  }

  lemma ConservedShift(results: multiset<string>, answered: multiset<string>, waiting: multiset<string>,
                       calls: multiset<string>)
    requires results + (waiting + answered) == calls
    ensures (results + answered) + waiting == calls
  {
  }

  lemma AnswerConserves(b: Books, before: seq<ToolRequest>, answered: seq<ToolRequest>, after: seq<ToolRequest>,
                        results: seq<ToolResult>)
    requires Conserved(b) && b.pending == before + answered + after && ResultKeys(results) == Ids(answered)
    ensures Conserved(Answer(b, results)) && Answer(b, results).pending == before + after
  {
    ConservedMeans(b);
    ConservedMeans(Answer(b, results));
    DropAllMiddle(before, answered, after, results);
    ResultIdsOfResults(b.transcript, results);
    ConservedShift(multiset(ResultIds(b.transcript)), multiset(ResultKeys(results)), multiset(Ids(before + after)),
                   multiset(Ids(b.toolCalls)) + multiset(b.superseded));
  }

  /** Answering calls that wait, under their own ids, keeps conservation and pairing. */
  lemma AnswerSound(b: Books, before: seq<ToolRequest>, answered: seq<ToolRequest>, after: seq<ToolRequest>,
                    results: seq<ToolResult>)
    requires Sound(b) && b.pending == before + answered + after && ResultKeys(results) == Ids(answered)
    ensures Sound(Answer(b, results)) && Answer(b, results).pending == before + after
  {
    assert Open(0);
    AnswerConserves(b, before, answered, after, results);
    ConservedMeans(b);
    DropAllMiddle(before, answered, after, results);
    ScanResults(b.transcript, results, multiset(Ids(before + after)));
    DoublesExtend(b.transcript, ResultEntries(results));
    RequestsExtend(b.transcript, ResultEntries(results));
  }

  lemma FlushSound(b: Books, reason: string)
    requires Sound(b)
    ensures Sound(Flush(b, reason))
  {
    assert Open(0);
    assert b.pending == [] + b.pending + [];
    AnswerSound(b, [], b.pending, [], MissingAll(b.pending, reason));
  }

  lemma RedoSplit(pending: seq<ToolRequest>, before: seq<ToolRequest>, request: ToolRequest, after: seq<ToolRequest>)
    requires Distinct(Ids(pending)) && pending == before + [request] + after
    ensures Drop(Drop(pending, request.toolCallId), request.toolCallId) == before + after
    ensures Distinct(Ids(before + after))
    ensures multiset(Ids(pending)) == multiset(Ids(before + after)) + multiset{request.toolCallId}
    ensures multiset(Ids(pending))[request.toolCallId] == 1
  {
    DropOne(before, request, after);
    IdsMiddle(before, request, after);
    IdsConcat(before, after);
    DistinctMiddle(Ids(before), request.toolCallId, Ids(after));
    DropAbsent(before + after, request.toolCallId);
    assert Ids(pending)[|before|] == request.toolCallId;
    DistinctCounts(Ids(pending), request.toolCallId);
  }

  lemma RedoBalance(results: multiset<string>, rest: multiset<string>, calls: multiset<string>, doubled: seq<string>,
                    id: string)
    requires results + (rest + multiset{id}) == calls + multiset(doubled)
    ensures (results + multiset([id, id])) + rest == calls + multiset(doubled + [id])
  {
    var one := multiset{id};
    assert multiset([id, id]) == one + one;
    assert multiset(doubled + [id]) == multiset(doubled) + one;
    assert (results + (one + one)) + rest == (results + (rest + one)) + one;
    assert (calls + multiset(doubled)) + one == calls + (multiset(doubled) + one);
  }

  lemma RedoConserves(b: Books, before: seq<ToolRequest>, request: ToolRequest, after: seq<ToolRequest>,
                      first: ToolResult, failure: Thrown, second: ToolResult)
    requires Conserved(b) && b.pending == before + [request] + after
    requires first.toolCallId == second.toolCallId == request.toolCallId
    ensures Conserved(Redo(b, first, failure, second)) && Redo(b, first, failure, second).pending == before + after
  {
    var id := request.toolCallId;
    assert Balances(b, id);
    ConservedMeans(b);
    ConservedMeans(Redo(b, first, failure, second));
    RedoSplit(b.pending, before, request, after);
    RedoEntries(b.transcript, first, failure, second);
    RedoBalance(multiset(ResultIds(b.transcript)), multiset(Ids(before + after)), multiset(Ids(b.toolCalls)),
                b.superseded, id);
    assert multiset(ResultIds(b.transcript) + [id, id]) == multiset(ResultIds(b.transcript)) + multiset([id, id]);
  }

  /** A handler's answer that cannot be merged keeps pairing, the superseded result aside. */
  lemma RedoSound(b: Books, before: seq<ToolRequest>, request: ToolRequest, after: seq<ToolRequest>, first: ToolResult,
                  failure: Thrown, second: ToolResult)
    requires Sound(b) && b.pending == before + [request] + after
    requires first.toolCallId == second.toolCallId == request.toolCallId
    ensures Sound(Redo(b, first, failure, second)) && Redo(b, first, failure, second).pending == before + after
  {
    assert Open(0);
    var rest := multiset(Ids(before + after));
    RedoConserves(b, before, request, after, first, failure, second);
    ConservedMeans(b);
    RedoSplit(b.pending, before, request, after);
    RedoEntries(b.transcript, first, failure, second);
    ShiftIn(rest, [], request.toolCallId);
    DoublesRedo(b.transcript, first, failure, second);
    RequestsExtend(b.transcript, [ToolResultEntry(first, Some(failure)), ToolResultEntry(second)]);
  }

  lemma RecordConserves(b: Books, e: Entry)
    requires Conserved(b) && !e.ToolResultEntry?
    ensures Conserved(Record(b, e))
  {
    ResultIdsAppend(b.transcript, e);
    ConservedMeans(b);
    ConservedMeans(Record(b, e));
  }

  /** Entries that carry no reply, no result and no request change nothing. */
  lemma RecordSound(b: Books, e: Entry)
    requires Sound(b) && !e.ToolResultEntry? && !e.LlmResponse? && !e.LlmRequest?
    ensures Sound(Record(b, e))
  {
    assert Open(0);
    RecordSane(b, e);
    ScanAppend(b.transcript, e);
  }

  lemma RecordSane(b: Books, e: Entry)
    requires Sane(b) && !e.ToolResultEntry? && !e.LlmRequest?
    ensures Sane(Record(b, e))
  {
    assert Open(0);
    RecordConserves(b, e);
    DoublesExtend(b.transcript, [e]);
    RequestsExtend(b.transcript, [e]);
  }

  lemma VoiceSound(b: Books)
    requires Sound(b) && b.silent != []
    ensures Sound(Voice(b))
  {
    assert Open(0);
    var e := ToolCallEntry(b.silent[0]);
    RecordSound(b, e);
    ConservedMeans(Record(b, e));
    ConservedMeans(Voice(b));
  }

  /** A request rebuilt while nothing is waited for. */
  lemma RequestSound(b: Books, compacted: set<string>, toolLoopV2: bool)
    requires Sound(b) && b.pending == []
    ensures Sound(Record(b, LlmRequest(Replay(b.transcript, Answered(b.transcript), compacted, toolLoopV2))))
  {
    assert Open(0);
    var messages := Replay(b.transcript, Answered(b.transcript), compacted, toolLoopV2);
    assert Ids(b.pending) == [];
    RebuiltExactly(b.transcript, compacted, toolLoopV2);
    RecordConserves(b, LlmRequest(messages));
    ScanAppend(b.transcript, LlmRequest(messages));
    DoublesExtend(b.transcript, [LlmRequest(messages)]);
    RequestsRecord(b.transcript, messages);
  }

  function Requests(reply: Reply): (requests: seq<ToolRequest>)
    ensures |requests| == |reply.toolCalls|
    ensures Ids(requests) == CallIds(reply.toolCalls)
  {
    seq(|reply.toolCalls|, i requires 0 <= i < |reply.toolCalls| =>
      var c := reply.toolCalls[i];
      ToolRequest(c.id, c.name, if c.args.Parsed? then c.args.params else "{}"))
  }

  lemma TrackBalance(results: multiset<string>, calls: multiset<string>, doubled: multiset<string>,
                     more: multiset<string>)
    requires results + multiset{} == calls + doubled
    ensures results + more == (calls + more) + doubled
  {
    assert results + multiset{} == results;
    assert (calls + doubled) + more == (calls + more) + doubled;
  }

  lemma TrackConserves(b: Books, requests: seq<ToolRequest>)
    requires Conserved(b) && b.pending == [] && Distinct(Ids(requests))
    ensures Conserved(Track(b, requests)) && Track(b, requests).pending == requests
  {
    ConservedMeans(b);
    ConservedMeans(Track(b, requests));
    assert [] + requests == requests;
    PutAllFresh([], requests);
    IdsConcat(b.toolCalls, requests);
    assert Ids(b.pending) == [];
    TrackBalance(multiset(ResultIds(b.transcript)), multiset(Ids(b.toolCalls)), multiset(b.superseded),
                 multiset(Ids(requests)));
    assert multiset(Ids(b.toolCalls) + Ids(requests)) == multiset(Ids(b.toolCalls)) + multiset(Ids(requests));
  }

  /** A reply and its calls, recorded and tracked, leave exactly those calls open. */
  lemma ReplySound(b: Books, reply: Reply)
    requires Sound(b) && b.pending == [] && Distinct(CallIds(reply.toolCalls))
    ensures Sound(Track(Record(b, LlmResponse(reply)), Requests(reply)))
    ensures Track(Record(b, LlmResponse(reply)), Requests(reply)).pending == Requests(reply)
  {
    assert Open(0);
    RecordSane(b, LlmResponse(reply));
    TrackConserves(Record(b, LlmResponse(reply)), Requests(reply));
    ScanAppend(b.transcript, LlmResponse(reply));
    assert multiset(Ids(b.pending)) == multiset{};
  }

  /** Tracking the calls of a recorded reply, whatever its ids and also when they are distinct. */
  lemma TrackReply(b: Books, reply: Reply)
    requires b.pending == [] && b.silent == [] && Kept(Record(b, LlmResponse(reply)))
    ensures var t := Track(Record(b, LlmResponse(reply)), Requests(reply));
            && Kept(t) && t.silent == Requests(reply)
            && (Sound(b) && Distinct(CallIds(reply.toolCalls)) ==> Sound(t) && t.pending == Requests(reply))
  {
    assert Open(0);
    TrackCovers(Record(b, LlmResponse(reply)), Requests(reply));
    if Sound(b) && Distinct(CallIds(reply.toolCalls)) {
      ReplySound(b, reply);
    }
  }

  lemma PlainReplySound(b: Books, reply: Reply)
    requires Sound(b) && b.pending == [] && reply.toolCalls == []
    ensures Sound(Record(b, LlmResponse(reply)))
  {
    assert Open(0);
    RecordSane(b, LlmResponse(reply));
    ScanAppend(b.transcript, LlmResponse(reply));
    assert CallIds(reply.toolCalls) == Ids(b.pending) == [];
  }

  /** A reply whose calls are never tracked leaves them open for good. */
  lemma DroppedReplyUnpaired(b: Books, reply: Reply)
    requires Sound(b) && b.pending == [] && reply.toolCalls != []
    ensures Sane(Record(b, LlmResponse(reply))) && Unpaired(Record(b, LlmResponse(reply)))
  {
    assert Open(0);
    RecordSane(b, LlmResponse(reply));
    ScanAppend(b.transcript, LlmResponse(reply));
    assert CallIds(reply.toolCalls)[0] in multiset(CallIds(reply.toolCalls));
  }

  // ------------------------------------------------------------------ closed books

  lemma {:induction false} CalledAreCalls(transcript: seq<Entry>)
    ensures forall id :: id in CalledIds(transcript) <==> id in Ids(Calls(transcript))
  {
    if transcript != [] {
      var init, last := transcript[..|transcript| - 1], transcript[|transcript| - 1];
      CalledAreCalls(init);
      assert transcript == init + [last];
      assert CalledIds(transcript) == CalledIds(init) + (if last.ToolCallEntry? then {last.request.toolCallId} else {});
      if last.ToolCallEntry? {
        IdsConcat(Calls(init), [last.request]);
        assert Ids([last.request]) == [last.request.toolCallId];
      } else {
        assert Calls(init) + [] == Calls(init);
      }
    }
  }

  /** Closed books: nothing is waited for, so every recorded and every announced call has a result. */
  lemma ClosedCovered(b: Books)
    requires Kept(b) && b.pending == []
    ensures forall r :: r in b.toolCalls ==> r.toolCallId in ResultIds(b.transcript)
    ensures CalledIds(b.transcript) <= RecordedIds(b.transcript)
  {
    assert Open(0);
    assert Ids(b.pending) == [];
    forall r | r in b.toolCalls
      ensures r.toolCallId in ResultIds(b.transcript)
    {
      assert HasAnswer(b, r);
    }
    RecordedAreResultIds(b.transcript);
    CalledAreCalls(b.transcript);
    forall id | id in CalledIds(b.transcript)
      ensures id in RecordedIds(b.transcript)
    {
      var i :| 0 <= i < |Calls(b.transcript)| && Ids(Calls(b.transcript))[i] == id;
      assert b.toolCalls[i] == Calls(b.transcript)[i] && b.toolCalls[i] in b.toolCalls;
    }
  }

  /** Results and recorded calls agree exactly when no result was superseded. */
  lemma ClosedConserved(b: Books)
    requires Conserved(b) && b.pending == []
    ensures multiset(ResultIds(b.transcript)) == multiset(Ids(b.toolCalls)) + multiset(b.superseded)
    ensures multiset(ResultIds(b.transcript)) == multiset(Ids(b.toolCalls)) <==> b.superseded == []
  {
    ConservedMeans(b);
    assert Ids(b.pending) == [];
    assert multiset(ResultIds(b.transcript)) + multiset{} == multiset(ResultIds(b.transcript));
    if b.superseded != [] {
      var calls, more := multiset(Ids(b.toolCalls)), multiset(b.superseded);
      assert |calls + more| == |calls| + |more| && |more| == |b.superseded|;
    } else {
      assert multiset(Ids(b.toolCalls)) + multiset{} == multiset(Ids(b.toolCalls));
    }
  }

  /** The literal transcript is paired exactly when no result was superseded and the effective one is paired. */
  lemma ClosedPairedIff(b: Books)
    requires Recorded(b) && DoublesOk(b.transcript)
    ensures ScanRaw(b.transcript) == Outstanding(multiset{})
       <==> b.superseded == [] && ScanTranscript(b.transcript) == Outstanding(multiset{})
  {
    RawIff(b.transcript);
  }

  lemma AnsweredAreRecorded(b: Books)
    requires Conserved(b) && Kept(b) && b.pending == []
    ensures forall id :: id in RecordedIds(b.transcript) <==> id in Ids(b.toolCalls)
  {
    assert Open(0);
    RecordedAreResultIds(b.transcript);
    ConservedMeans(b);
    ClosedConserved(b);
    ClosedCovered(b);
    forall id | id in RecordedIds(b.transcript)
      ensures id in Ids(b.toolCalls)
    {
      assert id in multiset(ResultIds(b.transcript));
      assert id in multiset(Ids(b.toolCalls)) || id in multiset(b.superseded);
    }
    forall id | id in Ids(b.toolCalls)
      ensures id in RecordedIds(b.transcript)
    {
      var i :| 0 <= i < |b.toolCalls| && Ids(b.toolCalls)[i] == id;
      assert b.toolCalls[i] in b.toolCalls;
    }
  }

  /**
   With nothing waited for, validation reports no warning if every call was announced,
   and only then if ids are distinct.
   */
  lemma ClosedValidIff(b: Books)
    requires Conserved(b) && Kept(b) && b.pending == []
    ensures b.silent == [] ==> CalledIds(b.transcript) == RecordedIds(b.transcript)
    ensures Distinct(Ids(b.toolCalls)) ==> (CalledIds(b.transcript) == RecordedIds(b.transcript) <==> b.silent == [])
  {
    assert Open(0);
    AnsweredAreRecorded(b);
    CalledAreCalls(b.transcript);
    IdsConcat(Calls(b.transcript), b.silent);
    if b.silent == [] {
      assert b.toolCalls == Calls(b.transcript);
    } else if Distinct(Ids(b.toolCalls)) {
      SilentIsNotCalled(Ids(Calls(b.transcript)), Ids(b.silent));
      var id := b.silent[0].toolCallId;
      assert Ids(b.silent)[0] == id && id in Ids(b.toolCalls);
      assert id in RecordedIds(b.transcript) && id !in CalledIds(b.transcript);
    }
  }

  lemma SilentIsNotCalled(called: seq<string>, silent: seq<string>)
    requires Distinct(called + silent) && silent != []
    ensures silent[0] !in called
  {
    forall i | 0 <= i < |called|
      ensures called[i] != silent[0]
    {
      assert (called + silent)[i] == called[i] && (called + silent)[|called|] == silent[0];
    }
  }

  /**
   Where ids are distinct over the run, a call has one result, and one more for each
   time its answer was superseded.
   */
  lemma ExactlyOneResult(b: Books, r: ToolRequest)
    requires Conserved(b) && b.pending == [] && Distinct(Ids(b.toolCalls)) && r in b.toolCalls
    ensures multiset(ResultIds(b.transcript))[r.toolCallId] == 1 + multiset(b.superseded)[r.toolCallId]
  {
    ClosedConserved(b);
    var i :| 0 <= i < |b.toolCalls| && b.toolCalls[i] == r;
    assert Ids(b.toolCalls)[i] == r.toolCallId;
    DistinctCounts(Ids(b.toolCalls), r.toolCallId);
  }
}
