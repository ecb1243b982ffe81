/**
 The run's transcript and the message list rebuilt from it for every model
 call (src/kernel/agent-kernel.ts, `buildTranscriptMessages`), plus the offline
 pairing check `validateToolResultPairing`.
 */
module Transcript {
  import opened Common
  import opened PairingGuard

  /** What `JSON.parse` made of a call's argument string. */
  datatype Arguments = Parsed(params: Json) | Unparseable(error: string)

  datatype ToolCall = ToolCall(id: string, name: string, args: Arguments)

  /** A model reply; `truncated` is finish reason 'length'. An empty string stands for an absent one. */
  datatype Reply = Reply(content: string, reasoning: string, toolCalls: seq<ToolCall>, truncated: bool)

  datatype Message =
    | Assistant(content: string, toolCalls: seq<ToolCall>)
    | ToolMessage(toolCallId: string, content: string)

  /** An exception; `aborted` says that its message starts with 'ABORTED:'. */
  datatype Thrown = Thrown(aborted: bool, message: string)

  /**
   A transcript entry. `failure` marks the answer of an internal handler that was
   committed but threw this when it was serialised to be merged, so that an error
   result for the same call was committed right after it; the source's entry does
   not carry the mark.
   */
  datatype Entry =
    | LlmRequest(messages: seq<Message>)
    | LlmResponse(reply: Reply)
    | ToolCallEntry(request: ToolRequest)
    | ToolResultEntry(result: ToolResult, failure: Option<Thrown> := None)
    | CompactEntry(applied: bool)
    | ErrorEntry(message: string)

  function CallIds(calls: seq<ToolCall>): (ids: seq<string>)
    ensures |ids| == |calls|
  {
    seq(|calls|, i requires 0 <= i < |calls| => calls[i].id)
  }

  /** Ids of the results recorded in a transcript, in order. */
  function ResultIds(transcript: seq<Entry>): seq<string> {
    if transcript == [] then []
    else
      var last := transcript[|transcript| - 1];
      ResultIds(transcript[..|transcript| - 1]) + (if last.ToolResultEntry? then [last.result.toolCallId] else [])
  }

  lemma ResultIdsAppend(transcript: seq<Entry>, e: Entry)
    ensures ResultIds(transcript + [e])
         == ResultIds(transcript) + (if e.ToolResultEntry? then [e.result.toolCallId] else [])
  {
    assert (transcript + [e])[..|transcript|] == transcript;
  }

  /** The calls announced in a transcript, in order. */
  function Calls(transcript: seq<Entry>): seq<ToolRequest> {
    if transcript == [] then []
    else
      var last := transcript[|transcript| - 1];
      Calls(transcript[..|transcript| - 1]) + (if last.ToolCallEntry? then [last.request] else [])
  }

  predicate IsSuperseded(e: Entry) {
    e.ToolResultEntry? && e.failure.Some?
  }

  /** Ids of the superseded results, in order. */
  function SupersededIds(transcript: seq<Entry>): seq<string> {
    if transcript == [] then []
    else
      var last := transcript[|transcript| - 1];
      SupersededIds(transcript[..|transcript| - 1]) + (if IsSuperseded(last) then [last.result.toolCallId] else [])
  }

  lemma CallsAppend(transcript: seq<Entry>, e: Entry)
    ensures Calls(transcript + [e]) == Calls(transcript) + (if e.ToolCallEntry? then [e.request] else [])
    ensures SupersededIds(transcript + [e])
              == SupersededIds(transcript) + (if IsSuperseded(e) then [e.result.toolCallId] else [])
  {
    assert (transcript + [e])[..|transcript|] == transcript;
  }

  // ---------------------------------------------------------------- pairing

  /**
   Reading a log from left to right: which announced calls still wait for
   their result. `Stray` means a result without a call, or a reply while calls
   of the previous one were still open.
   */
  datatype Scan = Stray | Outstanding(ids: multiset<string>)

  function Announce(s: Scan, ids: seq<string>): Scan {
    if s == Outstanding(multiset{}) then Outstanding(multiset(ids)) else Stray
  }

  function Settle(s: Scan, id: string): Scan {
    if s.Outstanding? && id in s.ids then Outstanding(s.ids - multiset{id}) else Stray
  }

  function ScanEntry(s: Scan, e: Entry): Scan {
    match e
    case LlmResponse(reply) => Announce(s, CallIds(reply.toolCalls))
    case ToolResultEntry(result, failure) => if failure.Some? then s else Settle(s, result.toolCallId)
    case _ => s
  }

  /** The scan of a transcript with the superseded results left out. */
  function ScanTranscript(transcript: seq<Entry>): Scan {
    if transcript == [] then Outstanding(multiset{})
    else ScanEntry(ScanTranscript(transcript[..|transcript| - 1]), transcript[|transcript| - 1])
  }

  lemma ScanAppend(transcript: seq<Entry>, e: Entry)
    ensures ScanTranscript(transcript + [e]) == ScanEntry(ScanTranscript(transcript), e)
  {
    assert (transcript + [e])[..|transcript|] == transcript;
  }

  /** The scan of a transcript as it stands, superseded results included. */
  function ScanRaw(transcript: seq<Entry>): Scan {
    if transcript == [] then Outstanding(multiset{})
    else
      var before, last := ScanRaw(transcript[..|transcript| - 1]), transcript[|transcript| - 1];
      if last.ToolResultEntry? then Settle(before, last.result.toolCallId) else ScanEntry(before, last)
  }

  function ScanMessage(s: Scan, m: Message): Scan {
    match m
    case Assistant(_, calls) => Announce(s, CallIds(calls))
    case ToolMessage(id, _) => Settle(s, id)
  }

  function ScanMessages(messages: seq<Message>): Scan {
    if messages == [] then Outstanding(multiset{})
    else ScanMessage(ScanMessages(messages[..|messages| - 1]), messages[|messages| - 1])
  }

  lemma ScanMessagesAppend(messages: seq<Message>, m: Message)
    ensures ScanMessages(messages + [m]) == ScanMessage(ScanMessages(messages), m)
  {
    assert (messages + [m])[..|messages|] == messages;
  }

  // ------------------------------------------------- block structure, spelled out

  /** End of the block that starts at `i`: the next assistant message, or the end of the list. */
  function BlockEnd(messages: seq<Message>, i: nat): (j: nat)
    requires i <= |messages|
    ensures i <= j <= |messages|
    ensures forall k :: i <= k < j ==> messages[k].ToolMessage?
    ensures j < |messages| ==> messages[j].Assistant?
    decreases |messages| - i
  {
    if i == |messages| || messages[i].Assistant? then i else BlockEnd(messages, i + 1)
  }

  /** The ids answered by the tool messages at positions `i` up to `j`. */
  function ToolIds(messages: seq<Message>, i: nat, j: nat): (ids: seq<string>)
    requires i <= j <= |messages| && forall k :: i <= k < j ==> messages[k].ToolMessage?
    ensures |ids| == j - i
  {
    if i == j then [] else ToolIds(messages, i, j - 1) + [messages[j - 1].toolCallId]
  }

  /**
   What a provider demands of a message list: it opens with an assistant
   message, and the tool messages between an assistant message and the next one
   answer exactly that message's calls, each once.
   */
  ghost predicate BlockStructured(messages: seq<Message>) {
    && BlockEnd(messages, 0) == 0
    && forall i :: 0 <= i < |messages| && messages[i].Assistant? ==>
         multiset(ToolIds(messages, i + 1, BlockEnd(messages, i + 1))) == multiset(CallIds(messages[i].toolCalls))
  }

  /** The scan before every message and after the last one. */
  ghost function Trace(messages: seq<Message>): (trace: seq<Scan>)
    ensures |trace| == |messages| + 1
  {
    if messages == [] then [Outstanding(multiset{})]
    else
      var init, n := messages[..|messages| - 1], |messages| - 1;
      Trace(init) + [ScanMessage(Trace(init)[n], messages[n])]
  }

  ghost predicate Stepped(trace: seq<Scan>, messages: seq<Message>, m: nat)
    requires m < |messages| && |trace| == |messages| + 1
  {
    trace[m + 1] == ScanMessage(trace[m], messages[m])
  }

  ghost predicate IsTrace(trace: seq<Scan>, messages: seq<Message>) {
    && |trace| == |messages| + 1 && trace[0] == Outstanding(multiset{})
    && forall m :: 0 <= m < |messages| ==> Stepped(trace, messages, m)
  }

  lemma {:induction false} TraceIsTrace(messages: seq<Message>)
    ensures IsTrace(Trace(messages), messages) && Trace(messages)[|messages|] == ScanMessages(messages)
  {
    if messages != [] {
      var init := messages[..|messages| - 1];
      TraceIsTrace(init);
      forall m | 0 <= m < |messages|
        ensures Stepped(Trace(messages), messages, m)
      {
        if m < |init| {
          assert Stepped(Trace(init), init, m);
        }
      }
    }
  }

  lemma StrayStays(s: Scan, m: Message)
    requires ScanMessage(s, m).Outstanding?
    ensures s.Outstanding?
  {
  }

  /** A settled id was open just before. */
  lemma SettledWasOpen(s: Scan, m: Message)
    requires m.ToolMessage? && ScanMessage(s, m).Outstanding?
    ensures s == Outstanding(ScanMessage(s, m).ids + multiset{m.toolCallId})
  {
  }

  lemma AlsoSettled(open: multiset<string>, settled: seq<string>, id: string)
    ensures (open + multiset{id}) + multiset(settled) == open + multiset(settled + [id])
  {
  }

  /** What tool messages settle is what was open before them and is no longer open after. */
  lemma {:induction false} ScanTools(trace: seq<Scan>, messages: seq<Message>, start: nat, stop: nat)
    requires IsTrace(trace, messages) && start <= stop <= |messages|
    requires forall k :: start <= k < stop ==> messages[k].ToolMessage?
    requires trace[stop].Outstanding?
    ensures trace[start] == Outstanding(trace[stop].ids + multiset(ToolIds(messages, start, stop)))
    decreases stop - start
  {
    if start < stop {
      assert Stepped(trace, messages, stop - 1);
      SettledWasOpen(trace[stop - 1], messages[stop - 1]);
      ScanTools(trace, messages, start, stop - 1);
      AlsoSettled(trace[stop].ids, ToolIds(messages, start, stop - 1), messages[stop - 1].toolCallId);
    } else {
      assert ToolIds(messages, start, stop) == [];
    }
  }

  /** A scan that is not astray was never astray before. */
  lemma {:induction false} TracePrefix(trace: seq<Scan>, messages: seq<Message>, n: nat)
    requires IsTrace(trace, messages) && n <= |messages| && trace[|messages|].Outstanding?
    ensures trace[n].Outstanding?
    decreases |messages| - n
  {
    if n < |messages| {
      TracePrefix(trace, messages, n + 1);
      assert Stepped(trace, messages, n);
      StrayStays(trace[n], messages[n]);
    }
  }

  /** An assistant message is only read when nothing is open, and opens its own calls. */
  lemma AssistantOpens(s: Scan, m: Message)
    requires m.Assistant? && ScanMessage(s, m).Outstanding?
    ensures s == Outstanding(multiset{}) && ScanMessage(s, m).ids == multiset(CallIds(m.toolCalls))
  {
  }

  /** At the end of a block nothing is left open, so what was open at its start is what it answers. */
  lemma BlockCloses(trace: seq<Scan>, messages: seq<Message>, i: nat)
    requires IsTrace(trace, messages) && i <= |messages| && trace[|messages|] == Outstanding(multiset{})
    ensures trace[i] == Outstanding(multiset(ToolIds(messages, i, BlockEnd(messages, i))))
  {
    var j := BlockEnd(messages, i);
    if j < |messages| {
      TracePrefix(trace, messages, j + 1);
      assert Stepped(trace, messages, j);
      AssistantOpens(trace[j], messages[j]);
    }
    ScanTools(trace, messages, i, j);
    assert multiset{} + multiset(ToolIds(messages, i, j)) == multiset(ToolIds(messages, i, j));
  }

  /** The tool messages after an assistant message answer its calls. */
  lemma BlockAnswers(trace: seq<Scan>, messages: seq<Message>, i: nat)
    requires IsTrace(trace, messages) && i < |messages| && messages[i].Assistant?
    requires trace[|messages|] == Outstanding(multiset{})
    ensures multiset(ToolIds(messages, i + 1, BlockEnd(messages, i + 1))) == multiset(CallIds(messages[i].toolCalls))
  {
    BlockCloses(trace, messages, i + 1);
    assert Stepped(trace, messages, i);
    AssistantOpens(trace[i], messages[i]);
  }

  /** No tool message stands before the first assistant message. */
  lemma NothingOpensTheList(trace: seq<Scan>, messages: seq<Message>)
    requires IsTrace(trace, messages) && trace[|messages|] == Outstanding(multiset{})
    ensures BlockEnd(messages, 0) == 0
  {
    BlockCloses(trace, messages, 0);
    var opening := ToolIds(messages, 0, BlockEnd(messages, 0));
    assert |opening| == |multiset(opening)| == 0;
  }

  /** The scan accepts only block-structured lists. */
  lemma AcceptedIsBlockStructured(messages: seq<Message>)
    requires ScanMessages(messages) == Outstanding(multiset{})
    ensures BlockStructured(messages)
  {
    var trace := Trace(messages);
    TraceIsTrace(messages);
    NothingOpensTheList(trace, messages);
    forall i | 0 <= i < |messages| && messages[i].Assistant?
      ensures multiset(ToolIds(messages, i + 1, BlockEnd(messages, i + 1))) == multiset(CallIds(messages[i].toolCalls))
    {
      BlockAnswers(trace, messages, i);
    }
  }

  lemma {:induction false} ToolIdsFront(messages: seq<Message>, i: nat, j: nat)
    requires i < j <= |messages| && forall k :: i <= k < j ==> messages[k].ToolMessage?
    ensures ToolIds(messages, i, j) == [messages[i].toolCallId] + ToolIds(messages, i + 1, j)
    decreases j
  {
    if i + 1 < j {
      ToolIdsFront(messages, i, j - 1);
    } else {
      assert ToolIds(messages, i, i) == [] && ToolIds(messages, i + 1, j) == [];
    }
  }

  /** Settling the first id of a list leaves the others. */
  lemma SettleFirst(id: string, rest: seq<string>)
    ensures Settle(Outstanding(multiset([id] + rest)), id) == Outstanding(multiset(rest))
  {
    assert multiset([id] + rest) == multiset{id} + multiset(rest);
  }

  /** What the rest of the block at `n` answers. */
  ghost function Due(messages: seq<Message>, n: nat): Scan
    requires n <= |messages|
  {
    Outstanding(multiset(ToolIds(messages, n, BlockEnd(messages, n))))
  }

  lemma StructuredStep(messages: seq<Message>, n: nat)
    requires BlockStructured(messages) && n < |messages|
    ensures ScanMessage(Due(messages, n), messages[n]) == Due(messages, n + 1)
  {
    if messages[n].ToolMessage? {
      var j := BlockEnd(messages, n);
      ToolIdsFront(messages, n, j);
      SettleFirst(messages[n].toolCallId, ToolIds(messages, n + 1, j));
    }
  }

  /** A list has one trace. */
  lemma {:induction false} SameTrace(a: seq<Scan>, b: seq<Scan>, messages: seq<Message>, n: nat)
    requires IsTrace(a, messages) && IsTrace(b, messages) && n <= |messages|
    ensures a[n] == b[n]
  {
    if n > 0 {
      SameTrace(a, b, messages, n - 1);
      assert Stepped(a, messages, n - 1) && Stepped(b, messages, n - 1);
    }
  }

  /** In a block-structured list, what is open at any point is what the rest of the block answers. */
  lemma StructuredIsAccepted(messages: seq<Message>)
    requires BlockStructured(messages)
    ensures ScanMessages(messages) == Outstanding(multiset{})
  {
    var due := seq(|messages| + 1, n requires 0 <= n <= |messages| => Due(messages, n));
    forall m | 0 <= m < |messages|
      ensures Stepped(due, messages, m)
    {
      StructuredStep(messages, m);
    }
    assert ToolIds(messages, 0, 0) == [] && ToolIds(messages, |messages|, |messages|) == [];
    TraceIsTrace(messages);
    SameTrace(due, Trace(messages), messages, |messages|);
  }

  /** The scan accepts exactly the block-structured lists. */
  lemma AcceptedIffBlockStructured(messages: seq<Message>)
    ensures ScanMessages(messages) == Outstanding(multiset{}) <==> BlockStructured(messages)
  {
    if BlockStructured(messages) {
      StructuredIsAccepted(messages);
    } else if ScanMessages(messages) == Outstanding(multiset{}) {
      AcceptedIsBlockStructured(messages);
    }
  }

  // ------------------------------------------------------- rebuilding messages

  function ActiveCalls(calls: seq<ToolCall>, compacted: set<string>): seq<ToolCall> {
    if calls == [] then []
    else
      var last := calls[|calls| - 1];
      ActiveCalls(calls[..|calls| - 1], compacted) + (if last.id in compacted then [] else [last])
  }

  function ToolText(result: ToolResult): string {
    if result.error.Some? then "Error: " + result.error.value.message else result.payload
  }

  /** The messages one transcript entry contributes; `answered` are the ids that have a result. */
  function ReplayEntry(e: Entry, answered: set<string>, compacted: set<string>, toolLoopV2: bool): seq<Message> {
    match e
    case LlmResponse(reply) =>
      var active := ActiveCalls(reply.toolCalls, compacted);
      if exists c :: c in active && c.id in answered - compacted then [Assistant(reply.content, active)]
      else if toolLoopV2 && exists c :: c in active && c.id !in answered - compacted then
        [Assistant(reply.content, active)]
      else if reply.content != "" then [Assistant(reply.content, [])]
      else []
    case ToolResultEntry(result, _) =>
      if result.toolCallId in compacted then [] else [ToolMessage(result.toolCallId, ToolText(result))]
    case _ => []
  }

  function Replay(transcript: seq<Entry>, answered: set<string>, compacted: set<string>,
                  toolLoopV2: bool): seq<Message> {
    if transcript == [] then []
    else
      Replay(transcript[..|transcript| - 1], answered, compacted, toolLoopV2)
      + ReplayEntry(transcript[|transcript| - 1], answered, compacted, toolLoopV2)
  }

  function Answered(transcript: seq<Entry>): set<string> {
    set id | id in ResultIds(transcript)
  }

  /** Every superseded result belongs to a compacted call. */
  ghost predicate AllHidden(transcript: seq<Entry>, compacted: set<string>) {
    forall id :: id in SupersededIds(transcript) ==> id in compacted
  }

  /** What serialising the visible superseded results again throws, if the outcome is the same as before. */
  function RebuildThrows(transcript: seq<Entry>, compacted: set<string>): Option<Thrown> {
    if transcript == [] then None
    else
      var before, last := RebuildThrows(transcript[..|transcript| - 1], compacted), transcript[|transcript| - 1];
      if before.Some? then before
      else if IsSuperseded(last) && last.result.toolCallId !in compacted then last.failure
      else None
  }

  lemma {:induction false} RebuildThrowsIff(transcript: seq<Entry>, compacted: set<string>)
    ensures RebuildThrows(transcript, compacted).None? <==> AllHidden(transcript, compacted)
  {
    if transcript != [] {
      RebuildThrowsIff(transcript[..|transcript| - 1], compacted);
    }
  }

  lemma {:induction false} RebuildThrowsEarly(transcript: seq<Entry>, compacted: set<string>, n: nat)
    requires n <= |transcript| && RebuildThrows(transcript[..n], compacted).Some?
    ensures RebuildThrows(transcript, compacted) == RebuildThrows(transcript[..n], compacted)
    decreases |transcript|
  {
    if n < |transcript| {
      assert transcript[..|transcript| - 1][..n] == transcript[..n];
      RebuildThrowsEarly(transcript[..|transcript| - 1], compacted, n);
    } else {
      assert transcript[..n] == transcript;
    }
  }

  lemma {:induction false} ReplayAt(transcript: seq<Entry>, answered: set<string>, compacted: set<string>,
                                    toolLoopV2: bool, i: nat)
    requires i < |transcript|
    ensures Replay(transcript[..i], answered, compacted, toolLoopV2)
              + ReplayEntry(transcript[i], answered, compacted, toolLoopV2)
              <= Replay(transcript, answered, compacted, toolLoopV2)
    decreases |transcript|
  {
    var init := transcript[..|transcript| - 1];
    if i < |init| {
      assert init[..i] == transcript[..i];
      ReplayAt(init, answered, compacted, toolLoopV2, i);
    }
  }

  lemma {:induction false} ActiveCallsFilter(calls: seq<ToolCall>, compacted: set<string>, visible: ToolCall -> bool)
    requires forall c :: visible(c) <==> c.id !in compacted
    ensures ActiveCalls(calls, compacted) == Filter(calls, visible)
  {
    if calls != [] {
      ActiveCallsFilter(calls[..|calls| - 1], compacted, visible);
    }
  }

  /**
   Where a result stands in a rebuilt list, if its call is not compacted: a failure as the
   error's message, anything else as its payload.
   */
  ghost predicate ShowsResult(messages: seq<Message>, k: nat, result: ToolResult) {
    && k < |messages|
    && messages[k] == ToolMessage(result.toolCallId,
                                  match result.error
                                  case Some(error) => "Error: " + error.message
                                  case None => result.payload)
  }

  /** A result whose call is not compacted. */
  ghost predicate IsVisible(e: Entry, compacted: set<string>) {
    e.ToolResultEntry? && e.result.toolCallId !in compacted
  }

  lemma ResultShown(transcript: seq<Entry>, answered: set<string>, compacted: set<string>, toolLoopV2: bool, i: nat)
    requires i < |transcript| && IsVisible(transcript[i], compacted)
    ensures ShowsResult(Replay(transcript, answered, compacted, toolLoopV2),
                        |Replay(transcript[..i], answered, compacted, toolLoopV2)|, transcript[i].result)
  {
    ReplayAt(transcript, answered, compacted, toolLoopV2, i);
  }

  /**
   What a reply contributes to a rebuilt list: its content with its visible calls, in order, if
   one of them was answered, or if the flag is on and one is left; else its content alone, if any.
   */
  lemma ReplyShown(transcript: seq<Entry>, answered: set<string>, compacted: set<string>, toolLoopV2: bool, i: nat,
                   visible: ToolCall -> bool)
    requires i < |transcript| && transcript[i].LlmResponse? && forall c :: visible(c) <==> c.id !in compacted
    ensures var reply, before := transcript[i].reply, Replay(transcript[..i], answered, compacted, toolLoopV2);
            var calls := Filter(reply.toolCalls, visible);
            before + (if (exists c :: c in calls && c.id in answered) || (toolLoopV2 && calls != [])
                      then [Assistant(reply.content, calls)]
                      else if reply.content != "" then [Assistant(reply.content, [])] else [])
              <= Replay(transcript, answered, compacted, toolLoopV2)
  {
    var reply := transcript[i].reply;
    var calls := Filter(reply.toolCalls, visible);
    ReplayAt(transcript, answered, compacted, toolLoopV2, i);
    ActiveCallsFilter(reply.toolCalls, compacted, visible);
    ActiveCallsErase(reply.toolCalls, compacted);
    if calls != [] {
      assert calls[0] in calls;
    }
  }

  /** The first pass of `buildTranscriptMessages`. */
  method CollectResultIds(transcript: seq<Entry>) returns (resultToolCallIds: set<string>)
    ensures resultToolCallIds == Answered(transcript)
  {
    resultToolCallIds := {};
    for i := 0 to |transcript|
      invariant resultToolCallIds == Answered(transcript[..i])
    {
      assert transcript[..i + 1] == transcript[..i] + [transcript[i]];
      ResultIdsAppend(transcript[..i], transcript[i]);
      if transcript[i].ToolResultEntry? {
        resultToolCallIds := resultToolCallIds + {transcript[i].result.toolCallId};
      }
    }
    assert transcript[..|transcript|] == transcript;
  }

  lemma RebuildNext(transcript: seq<Entry>, n: nat, answered: set<string>, compacted: set<string>, toolLoopV2: bool)
    requires n < |transcript|
    ensures Replay(transcript[..n + 1], answered, compacted, toolLoopV2)
         == Replay(transcript[..n], answered, compacted, toolLoopV2)
            + ReplayEntry(transcript[n], answered, compacted, toolLoopV2)
    ensures RebuildThrows(transcript[..n], compacted).None? ==>
              RebuildThrows(transcript[..n + 1], compacted)
              == if IsSuperseded(transcript[n]) && transcript[n].result.toolCallId !in compacted
                 then transcript[n].failure else None
  {
    assert transcript[..n + 1][..n] == transcript[..n];
  }

  /**
   `buildTranscriptMessages`: collect the answered ids, then walk the transcript.
   A result that could not be serialised before throws again if the serialiser is
   `steady`, that is if serialising the same value again has the same outcome.
   */
  method BuildTranscriptMessages(transcript: seq<Entry>, compacted: set<string>, toolLoopV2: bool, steady: bool)
    returns (messages: seq<Message>, thrown: Option<Thrown>)
    ensures thrown == if steady then RebuildThrows(transcript, compacted) else None
    ensures thrown.None? ==> messages == Replay(transcript, Answered(transcript), compacted, toolLoopV2)
    ensures thrown.None? && steady ==> AllHidden(transcript, compacted)
    ensures thrown.None? && ScanTranscript(transcript) == Outstanding(multiset{})
              && AllHidden(transcript, compacted) ==>
              BlockStructured(messages)
    ensures thrown.None? ==> forall i :: 0 <= i < |transcript| && IsVisible(transcript[i], compacted) ==>
              ShowsResult(messages, |Replay(transcript[..i], Answered(transcript), compacted, toolLoopV2)|,
                          transcript[i].result)
  {
    var resultToolCallIds := CollectResultIds(transcript);
    messages, thrown := [], None;
    for i := 0 to |transcript|
      invariant messages == Replay(transcript[..i], resultToolCallIds, compacted, toolLoopV2)
      invariant thrown.None? && (steady ==> RebuildThrows(transcript[..i], compacted).None?)
    {
      var e := transcript[i];
      RebuildNext(transcript, i, resultToolCallIds, compacted, toolLoopV2);
      if steady && IsSuperseded(e) && e.result.toolCallId !in compacted {
        RebuildThrowsEarly(transcript, compacted, i + 1);
        return messages, e.failure;
      }
      messages := messages + ReplayEntry(e, resultToolCallIds, compacted, toolLoopV2);
    }
    assert transcript[..|transcript|] == transcript;
    RebuildThrowsIff(transcript, compacted);
    forall i | 0 <= i < |transcript| && IsVisible(transcript[i], compacted)
      ensures ShowsResult(messages, |Replay(transcript[..i], resultToolCallIds, compacted, toolLoopV2)|,
                          transcript[i].result)
    {
      ResultShown(transcript, resultToolCallIds, compacted, toolLoopV2, i);
    }
    if ScanTranscript(transcript) == Outstanding(multiset{}) && AllHidden(transcript, compacted) {
      ReplayIsBlockStructured(transcript, compacted, toolLoopV2);
    }
  }

  /** `o'` is `o` with the compacted ids erased. */
  ghost predicate Erased(o: multiset<string>, compacted: set<string>, o': multiset<string>) {
    forall id :: o'[id] == if id in compacted then 0 else o[id]
  }

  lemma {:induction false} ActiveCallsErase(calls: seq<ToolCall>, compacted: set<string>)
    ensures Erased(multiset(CallIds(calls)), compacted, multiset(CallIds(ActiveCalls(calls, compacted))))
    ensures forall c :: c in ActiveCalls(calls, compacted) ==> c in calls && c.id !in compacted
  {
    if calls != [] {
      var init, last := calls[..|calls| - 1], calls[|calls| - 1];
      ActiveCallsErase(init, compacted);
      assert calls == init + [last];
      CallIdsAppend(init, last);
      CallIdsAppend(ActiveCalls(init, compacted), last);
      if last.id in compacted {
        assert ActiveCalls(calls, compacted) == ActiveCalls(init, compacted);
      }
    }
  }

  lemma CallIdsAppend(calls: seq<ToolCall>, c: ToolCall)
    ensures CallIds(calls + [c]) == CallIds(calls) + [c.id]
    ensures multiset(CallIds(calls + [c])) == multiset(CallIds(calls)) + multiset{c.id}
  {
    assert CallIds(calls + [c]) == CallIds(calls) + [c.id];
  }

  /** Every announced call either has a recorded result or is still open. */
  lemma {:induction false} AnnouncedIsAnsweredOrOpen(transcript: seq<Entry>, i: nat, c: ToolCall)
    requires ScanTranscript(transcript).Outstanding?
    requires i < |transcript| && transcript[i].LlmResponse? && c in transcript[i].reply.toolCalls
    ensures c.id in ResultIds(transcript) || c.id in ScanTranscript(transcript).ids
    decreases |transcript|
  {
    var init := transcript[..|transcript| - 1];
    if i == |transcript| - 1 {
      var k :| 0 <= k < |transcript[i].reply.toolCalls| && transcript[i].reply.toolCalls[k] == c;
      assert CallIds(transcript[i].reply.toolCalls)[k] == c.id;
    } else {
      var last := transcript[|transcript| - 1];
      EntryKeepsOutstanding(ScanTranscript(init), last, c.id);
      AnnouncedIsAnsweredOrOpen(init, i, c);
      assert transcript == init + [last];
      ResultIdsAppend(init, last);
    }
  }

  /** An entry that leaves the scan outstanding found it so, and only its own result closes an id. */
  lemma EntryKeepsOutstanding(s: Scan, e: Entry, id: string)
    requires ScanEntry(s, e).Outstanding?
    ensures s.Outstanding?
    ensures id in s.ids && id !in ScanEntry(s, e).ids ==> e.ToolResultEntry? && e.result.toolCallId == id
  {
  }

  /** All calls of all replies are among the answered ids. */
  ghost predicate AllAnswered(transcript: seq<Entry>, answered: set<string>) {
    forall i, c :: 0 <= i < |transcript| && transcript[i].LlmResponse? && c in transcript[i].reply.toolCalls ==>
        c.id in answered
  }

  /** A reply adds its visible calls, whichever branch writes the assistant message. */
  lemma ReplayReply(before: seq<Message>, reply: Reply, answered: set<string>, compacted: set<string>, toolLoopV2: bool)
    requires ScanMessages(before) == Outstanding(multiset{})
    requires forall c :: c in reply.toolCalls ==> c.id in answered
    ensures var s := ScanMessages(before + ReplayEntry(LlmResponse(reply), answered, compacted, toolLoopV2));
            s.Outstanding? && Erased(multiset(CallIds(reply.toolCalls)), compacted, s.ids)
  {
    var active := ActiveCalls(reply.toolCalls, compacted);
    ActiveCallsErase(reply.toolCalls, compacted);
    var added := ReplayEntry(LlmResponse(reply), answered, compacted, toolLoopV2);
    if active != [] {
      assert active[0] in active && active[0].id in answered - compacted;
      assert added == [Assistant(reply.content, active)];
      ScanMessagesAppend(before, added[0]);
    } else {
      assert multiset(CallIds(active)) == multiset{};
      if added == [] {
        assert before + added == before;
      } else {
        assert added == [Assistant(reply.content, [])];
        ScanMessagesAppend(before, added[0]);
      }
    }
  }

  /** A result is visible exactly when its call is. */
  lemma ReplayResult(before: seq<Message>, open: multiset<string>, result: ToolResult, answered: set<string>,
                     compacted: set<string>, toolLoopV2: bool)
    requires ScanMessages(before).Outstanding? && Erased(open, compacted, ScanMessages(before).ids)
    requires result.toolCallId in open
    ensures var s := ScanMessages(before + ReplayEntry(ToolResultEntry(result), answered, compacted, toolLoopV2));
            s.Outstanding? && Erased(open - multiset{result.toolCallId}, compacted, s.ids)
  {
    var added := ReplayEntry(ToolResultEntry(result), answered, compacted, toolLoopV2);
    if added == [] {
      assert before + added == before;
    } else {
      ScanMessagesAppend(before, added[0]);
    }
  }

  /**
   Replaying keeps the pairing: hiding the compacted ids from the calls and from
   the results hides the same calls on both sides, whether or not the
   tool-loop-v2 flag is on.
   */
  lemma {:induction false} ReplayScan(transcript: seq<Entry>, answered: set<string>, compacted: set<string>,
                                      toolLoopV2: bool)
    requires ScanTranscript(transcript).Outstanding? && AllAnswered(transcript, answered)
    requires AllHidden(transcript, compacted)
    ensures ScanMessages(Replay(transcript, answered, compacted, toolLoopV2)).Outstanding?
    ensures Erased(ScanTranscript(transcript).ids, compacted,
                   ScanMessages(Replay(transcript, answered, compacted, toolLoopV2)).ids)
    decreases |transcript|
  {
    if transcript != [] {
      var init, last := transcript[..|transcript| - 1], transcript[|transcript| - 1];
      assert AllAnswered(init, answered) by {
        assert forall i :: 0 <= i < |init| ==> init[i] == transcript[i];
      }
      ReplayScan(init, answered, compacted, toolLoopV2);
      assert last.LlmResponse? ==> forall c :: c in last.reply.toolCalls ==> c.id in answered;
      ReplayScanEntry(Replay(init, answered, compacted, toolLoopV2), ScanTranscript(init), last,
                      answered, compacted, toolLoopV2);
    }
  }

  /** One entry more keeps the scans of transcript and messages in step. */
  lemma ReplayScanEntry(before: seq<Message>, s: Scan, e: Entry,
                        answered: set<string>, compacted: set<string>, toolLoopV2: bool)
    requires s.Outstanding? && ScanEntry(s, e).Outstanding?
    requires ScanMessages(before).Outstanding? && Erased(s.ids, compacted, ScanMessages(before).ids)
    requires e.LlmResponse? ==> forall c :: c in e.reply.toolCalls ==> c.id in answered
    requires IsSuperseded(e) ==> e.result.toolCallId in compacted
    ensures var after := ScanMessages(before + ReplayEntry(e, answered, compacted, toolLoopV2));
            after.Outstanding? && Erased(ScanEntry(s, e).ids, compacted, after.ids)
  {
    assert before + [] == before;
    match e {
      case LlmResponse(reply) =>
        assert ScanMessages(before).ids == multiset{};
        ReplayReply(before, reply, answered, compacted, toolLoopV2);
      case ToolResultEntry(result, failure) =>
        if failure.None? {
          ReplayResult(before, s.ids, result, answered, compacted, toolLoopV2);
        }
      case _ =>
    }
  }

  lemma ClosedIsAnswered(transcript: seq<Entry>)
    requires ScanTranscript(transcript) == Outstanding(multiset{})
    ensures AllAnswered(transcript, Answered(transcript))
  {
    forall i, c | 0 <= i < |transcript| && transcript[i].LlmResponse? && c in transcript[i].reply.toolCalls
      ensures c.id in Answered(transcript)
    {
      AnnouncedIsAnsweredOrOpen(transcript, i, c);
    }
  }

  /**
   Main result on replay: from a transcript in which every call got its result,
   the rebuilt message list is block-structured for any set of compacted ids
   that hides what was superseded, and either setting of the flag.
   */
  lemma ReplayIsBlockStructured(transcript: seq<Entry>, compacted: set<string>, toolLoopV2: bool)
    requires ScanTranscript(transcript) == Outstanding(multiset{}) && AllHidden(transcript, compacted)
    ensures BlockStructured(Replay(transcript, Answered(transcript), compacted, toolLoopV2))
  {
    ClosedIsAnswered(transcript);
    ReplayScan(transcript, Answered(transcript), compacted, toolLoopV2);
    var messages := Replay(transcript, Answered(transcript), compacted, toolLoopV2);
    assert ScanMessages(messages).ids == multiset{};
    AcceptedIsBlockStructured(messages);
  }

  // -------------------------------------------------------- offline validation

  function CalledIds(transcript: seq<Entry>): set<string> {
    set e | e in transcript && e.ToolCallEntry? :: e.request.toolCallId
  }

  function RecordedIds(transcript: seq<Entry>): set<string> {
    set e | e in transcript && e.ToolResultEntry? :: e.result.toolCallId
  }

  lemma {:induction false} RecordedAreResultIds(transcript: seq<Entry>)
    ensures RecordedIds(transcript) == Answered(transcript)
  {
    if transcript != [] {
      var init, last := transcript[..|transcript| - 1], transcript[|transcript| - 1];
      RecordedAreResultIds(init);
      assert transcript == init + [last];
      assert RecordedIds(transcript)
          == RecordedIds(init) + (if last.ToolResultEntry? then {last.result.toolCallId} else {});
    }
  }

  method CollectIds(transcript: seq<Entry>) returns (calledIds: set<string>, resultIds: set<string>)
    ensures calledIds == CalledIds(transcript) && resultIds == RecordedIds(transcript)
  {
    calledIds, resultIds := {}, {};
    for i := 0 to |transcript|
      invariant calledIds == CalledIds(transcript[..i])
      invariant resultIds == RecordedIds(transcript[..i])
    {
      var e := transcript[i];
      assert forall x :: x in transcript[..i + 1] <==> x in transcript[..i] || x == e;
      if e.ToolCallEntry? {
        calledIds := calledIds + {e.request.toolCallId};
      } else if e.ToolResultEntry? {
        resultIds := resultIds + {e.result.toolCallId};
      }
    }
    assert transcript[..|transcript|] == transcript;
  }

  /** One warning for each id of one side that the other side lacks. */
  method OneSided(ids: set<string>, other: set<string>) returns (warnings: seq<string>)
    ensures forall id :: id in warnings <==> id in ids && id !in other
    ensures Distinct(warnings)
    ensures warnings == [] <==> ids <= other
  {
    warnings := [];
    var todo := ids;
    while todo != {}
      invariant todo <= ids
      invariant forall id :: id in warnings <==> id in ids && id !in todo && id !in other
      invariant Distinct(warnings)
      decreases |todo|
    {
      var id :| id in todo;
      todo := todo - {id};
      if id !in other {
        warnings := warnings + [id];
      }
    }
    assert warnings != [] ==> warnings[0] in warnings;
  }

  /** `validateToolResultPairing`: its missing-result and its orphan-result warnings, by call id. */
  method ValidateToolResultPairing(transcript: seq<Entry>)
    returns (valid: bool, missing: seq<string>, orphans: seq<string>)
    ensures valid <==> CalledIds(transcript) == RecordedIds(transcript)
    ensures valid <==> missing == [] && orphans == []
    ensures Distinct(missing)
    ensures forall id :: id in missing <==> id in CalledIds(transcript) && id !in RecordedIds(transcript)
    ensures Distinct(orphans)
    ensures forall id :: id in orphans <==> id in RecordedIds(transcript) && id !in CalledIds(transcript)
  {
    var calledIds, resultIds := CollectIds(transcript);
    missing := OneSided(calledIds, resultIds);
    orphans := OneSided(resultIds, calledIds);
    valid := missing == [] && orphans == [];
  }
}
