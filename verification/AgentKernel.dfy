/**
 The kernel's tool loop (src/kernel/agent-kernel.ts, `AgentKernel.run`).

 Everything the loop waits for - the model, internal handlers, the dispatcher,
 the compaction executor, the clock and the abort signal - is an arbitrary
 input: `turns(i)` holds all the answers given during iteration `i`.
 */
module AgentKernel {
  import opened Common
  import opened PairingGuard
  import opened Transcript
  import opened Doubles
  import opened Compaction
  import opened Ledger
  import opened KernelSpec
  import opened KernelLaws

  /** The entries of a truncated reply's calls: each announced and refused, in order. */
  function Rejections(requests: seq<ToolRequest>): seq<Entry> {
    if requests == [] then []
    else
      var last := requests[|requests| - 1];
      Rejections(requests[..|requests| - 1]) + [ToolCallEntry(last), ToolResultEntry(TruncationError(last))]
  }

  lemma RejectionsNext(requests: seq<ToolRequest>, i: nat)
    requires i < |requests|
    ensures Rejections(requests[..i + 1])
              == Rejections(requests[..i]) + [ToolCallEntry(requests[i]), ToolResultEntry(TruncationError(requests[i]))]
  {
    assert requests[..i + 1][..i] == requests[..i];
  }

  /** The result entries a handler's outcome leaves. */
  function HandlerEntries(request: ToolRequest, outcome: HandlerOutcome): seq<Entry> {
    if outcome.HandlerThrew? then [ToolResultEntry(HandlerError(request, outcome.message))]
    else if HandlerFault(outcome).None? then [ToolResultEntry(outcome.result)]
    else [ToolResultEntry(outcome.result, HandlerFault(outcome)),
          ToolResultEntry(HandlerError(request, HandlerFault(outcome).value.message))]
  }

  lemma ResultKeysPrefix(results: seq<ToolResult>, batch: seq<ToolRequest>, n: nat)
    requires ResultKeys(results) == Ids(batch) && n <= |batch|
    ensures ResultKeys(results[..n]) == Ids(batch[..n])
  {
    assert ResultKeys(results[..n]) == ResultKeys(results)[..n];
    assert Ids(batch[..n]) == Ids(batch)[..n];
  }

  /** The `i`-th result of a batch, and what recording it throws. */
  ghost predicate BatchAt(outcome: DispatchOutcome, exec: map<string, ExecResult>, batch: seq<ToolRequest>,
                          results: seq<ToolResult>, faults: seq<Option<Thrown>>, i: nat)
    requires i < |batch| == |results| == |faults|
  {
    results[i] == BatchResult(outcome, exec, batch[i]) && faults[i] == FaultAt(outcome, results[i], i)
  }

  class AgentKernel {
    const input: RunInput
    const guard: ToolResultPairingGuard
    var currentIteration: nat
    var contextItems: seq<ContextItem>
    var toolCalls: seq<ToolRequest>
    var transcript: seq<Entry>
    var compactedItemIds: set<string>
    var compactedToolCallIds: set<string>
    var lastCompactSummaryItem: Option<ContextItem>
    var itemSerial: nat
    ghost var silent: seq<ToolRequest>
    ghost var superseded: seq<string>
    ghost var itemHistory: seq<ItemEvent>
    ghost var effects: seq<Effect>

    ghost function TheBooks(): Books
      reads this, guard
    {
      Books(toolCalls, transcript, guard.pendingCalls, silent, superseded, input.steadySerialiser)
    }

    /** The item list is what its history leaves, and no protected item was ever compacted away. */
    ghost predicate ItemsTracked()
      reads this
    {
      Tracks(contextItems, itemHistory, input.MustKeep())
    }

    /** Kept by every step, whatever the environment answers. */
    ghost predicate Valid()
      reads this, guard
    {
      Kept(TheBooks()) && ItemsTracked()
    }

    /** Kept by every step, and more of it if the environment keeps its promises. */
    ghost predicate Ok(honest: bool)
      reads this, guard
    {
      Valid() && (honest ==> Sound(TheBooks()))
    }

    /** What an honest environment leaves behind: all paired, unless a reply's calls were dropped. */
    ghost predicate Balanced(dropped: bool)
      reads this, guard
    {
      && Sane(TheBooks())
      && (if dropped then Unpaired(TheBooks()) else Paired(TheBooks()))
    }

    constructor (input: RunInput)
      ensures this.input == input && fresh(guard)
      ensures Valid() && Sound(TheBooks()) && guard.pendingCalls == []
      ensures toolCalls == [] && transcript == [] && silent == [] && superseded == [] && effects == []
      ensures currentIteration == 0 && compactedToolCallIds == {}
      ensures contextItems == input.InitialItems() && itemHistory == Additions(input.InitialItems())
    {
      this.input := input;
      guard := new ToolResultPairingGuard();
      currentIteration, itemSerial := 0, 0;
      contextItems := input.orderedItems + input.pinnedItems;
      toolCalls, transcript := [], [];
      compactedItemIds, compactedToolCallIds, lastCompactSummaryItem := {}, {}, None;
      silent, superseded, itemHistory, effects := [], [], Additions(input.InitialItems()), [];
      new;
      AdditionsSurvive(input.InitialItems(), input.MustKeep());
      ConservedMeans(TheBooks());
    }

    // ------------------------------------------------------------ recording results

    method Commit(e: Entry)
      modifies this`transcript
      ensures TheBooks() == Record(old(TheBooks()), e)
    {
      transcript := transcript + [e];
    }

    /** Exactly one item was added: the one that shows this result. */
    ghost predicate Merged(before: seq<ItemEvent>, request: ToolRequest, result: ToolResult)
      reads this
    {
      && before <= itemHistory && |itemHistory| == |before| + 1
      && itemHistory[|before|].Added? && itemHistory[|before|].item.toolCallId == request.toolCallId
      && forall n {:trigger Open(n)} :: Open(n) ==>
           itemHistory[|before|].item == ToolItem(itemHistory[|before|].item.itemId, request, result)
    }

    method MergeToolResult(request: ToolRequest, result: ToolResult)
      requires ItemsTracked()
      modifies this`contextItems, this`itemSerial, this`itemHistory
      ensures ItemsTracked() && Merged(old(itemHistory), request, result)
    {
      var item := ToolItem(input.newItemId(itemSerial), request, result);
      contextItems := contextItems + [item];
      itemSerial := itemSerial + 1;
      TracksAdd(old(contextItems), itemHistory, input.MustKeep(), item);
      itemHistory := itemHistory + [Added(item)];
    }

    /** Accept and record one result. */
    method Accept(result: ToolResult)
      modifies this`transcript, guard
      ensures TheBooks() == Answer(old(TheBooks()), [result])
    {
      guard.AcceptToolResult(result);
      Commit(ToolResultEntry(result));
      AnswerOne(old(TheBooks()), result);
    }

    /** Accept, record and merge one result: the lines the kernel repeats for every result. */
    method Deliver(request: ToolRequest, result: ToolResult)
      requires ItemsTracked()
      modifies this`transcript, this`contextItems, this`itemSerial, this`itemHistory, guard
      ensures ItemsTracked() && Merged(old(itemHistory), request, result)
      ensures TheBooks() == Answer(old(TheBooks()), [result])
    {
      Accept(result);
      MergeToolResult(request, result);
    }

    /** Record and merge one synthetic result. */
    method AddMissing(result: ToolResult)
      requires ItemsTracked()
      modifies this`transcript, this`contextItems, this`itemSerial, this`itemHistory
      ensures ItemsTracked()
      ensures Merged(old(itemHistory), ToolRequest(result.toolCallId, NameOf(result.toolCallId), "{}"), result)
      ensures transcript == old(transcript) + [ToolResultEntry(result)]
    {
      Commit(ToolResultEntry(result));
      MergeToolResult(ToolRequest(result.toolCallId, NameOf(result.toolCallId), "{}"), result);
    }

    /** The `k`-th item ever added shows the missing result of a call, under the name the call was recorded with. */
    ghost predicate ShowsMissing(k: nat, request: ToolRequest, reason: string)
      reads this
    {
      && k < |itemHistory| && itemHistory[k].Added?
      && forall n {:trigger Open(n)} :: Open(n) ==>
           itemHistory[k].item == ToolItem(itemHistory[k].item.itemId,
                                           ToolRequest(request.toolCallId, NameOf(request.toolCallId), "{}"),
                                           Missing(request, reason))
    }

    /** `flushPairingGuard`: a synthetic result for every call still waited for. */
    method FlushPairingGuard(reason: string)
      requires ItemsTracked()
      modifies this`transcript, this`contextItems, this`itemSerial, this`itemHistory, guard
      ensures ItemsTracked() && old(itemHistory) <= itemHistory
      ensures |itemHistory| == |old(itemHistory)| + |old(guard.pendingCalls)|
      ensures forall i :: 0 <= i < |old(guard.pendingCalls)| ==>
                ShowsMissing(|old(itemHistory)| + i, old(guard.pendingCalls)[i], reason)
      ensures TheBooks() == Flush(old(TheBooks()), reason)
    {
      var missing := guard.FlushMissingResults(reason);
      for i := 0 to |missing|
        invariant ItemsTracked() && old(itemHistory) <= itemHistory
        invariant guard.pendingCalls == [] && |itemHistory| == |old(itemHistory)| + i
        invariant forall k :: 0 <= k < i ==> ShowsMissing(|old(itemHistory)| + k, old(guard.pendingCalls)[k], reason)
        invariant transcript == old(transcript) + ResultEntries(missing[..i])
      {
        AddMissing(missing[i]);
        assert ResultEntries(missing[..i + 1]) == ResultEntries(missing[..i]) + [ToolResultEntry(missing[i])];
      }
      assert missing[..|missing|] == missing;
    }

    /** The name the first recorded call with this id was made under. */
    function NameOf(id: string): string
      reads this
    {
      if exists i :: 0 <= i < |toolCalls| && toolCalls[i].toolCallId == id then
        FirstName(toolCalls, id)
      else "unknown"
    }

    static function FirstName(calls: seq<ToolRequest>, id: string): string
      requires exists i :: 0 <= i < |calls| && calls[i].toolCallId == id
    {
      if calls[0].toolCallId == id then calls[0].toolName else FirstName(calls[1..], id)
    }

    /** A call is named after the first recorded one with its id, and "unknown" if there is none. */
    lemma NameOfMeans(id: string)
      ensures (forall k :: 0 <= k < |toolCalls| ==> toolCalls[k].toolCallId != id) ==> NameOf(id) == "unknown"
      ensures forall k :: 0 <= k < |toolCalls| && toolCalls[k].toolCallId == id
                && (forall j :: 0 <= j < k ==> toolCalls[j].toolCallId != id)
                ==> NameOf(id) == toolCalls[k].toolName
    {
      forall k | 0 <= k < |toolCalls| && toolCalls[k].toolCallId == id
          && (forall j :: 0 <= j < k ==> toolCalls[j].toolCallId != id)
        ensures NameOf(id) == toolCalls[k].toolName
      {
        FirstNameIs(toolCalls, id, k);
      }
    }

    static lemma {:induction false} FirstNameIs(calls: seq<ToolRequest>, id: string, k: nat)
      requires k < |calls| && calls[k].toolCallId == id && forall j :: 0 <= j < k ==> calls[j].toolCallId != id
      ensures FirstName(calls, id) == calls[k].toolName
    {
      if k > 0 {
        assert calls[1..][k - 1] == calls[k];
        FirstNameIs(calls[1..], id, k - 1);
      }
    }

    /** Write the tool_call entry of a recorded call. */
    method Announce(request: ToolRequest, ghost rest: seq<ToolRequest>, ghost honest: bool)
      requires Ok(honest) && silent == [request] + rest
      modifies this`transcript, this`silent
      ensures Ok(honest) && silent == rest && transcript == old(transcript) + [ToolCallEntry(request)]
    {
      VoiceCovers(TheBooks());
      if honest {
        VoiceSound(TheBooks());
      }
      Commit(ToolCallEntry(request));
      silent := silent[1..];
    }

    /** Deliver the result of a call that waits behind the buffered ones and before the rest of the reply. */
    method AnswerInOrder(request: ToolRequest, result: ToolResult,
                         ghost buffered: seq<ToolRequest>, ghost rest: seq<ToolRequest>, ghost honest: bool)
      requires Ok(honest)
      requires honest ==> guard.pendingCalls == buffered + ([request] + rest) && result.toolCallId == request.toolCallId
      modifies this`transcript, this`contextItems, this`itemSerial, this`itemHistory, guard
      ensures Ok(honest) && Merged(old(itemHistory), request, result)
      ensures transcript == old(transcript) + [ToolResultEntry(result)]
      ensures honest ==> guard.pendingCalls == buffered + rest
    {
      AnswerCovers(TheBooks(), [result]);
      if honest {
        assert guard.pendingCalls == buffered + [request] + rest;
        assert ResultKeys([result]) == Ids([request]);
        AnswerSound(TheBooks(), buffered, [request], rest, [result]);
      }
      AnswerOne(TheBooks(), result);
      Deliver(request, result);
    }

    /** A handler's answer is accepted and recorded, merging it throws, and an error result takes its place. */
    method RedoInOrder(request: ToolRequest, first: ToolResult, failure: Thrown, second: ToolResult,
                       ghost rest: seq<ToolRequest>, ghost honest: bool)
      requires Ok(honest)
      requires honest ==>
                 guard.pendingCalls == [request] + rest && first.toolCallId == second.toolCallId == request.toolCallId
      modifies this`transcript, this`superseded, this`contextItems, this`itemSerial, this`itemHistory, guard
      ensures Ok(honest) && Merged(old(itemHistory), request, second)
      ensures transcript == old(transcript) + [ToolResultEntry(first, Some(failure)), ToolResultEntry(second)]
      ensures superseded == old(superseded) + [first.toolCallId]
      ensures honest ==> guard.pendingCalls == rest
    {
      RedoCovers(TheBooks(), first, failure, second);
      if honest {
        assert guard.pendingCalls == [] + [request] + rest && [] + rest == rest;
        RedoSound(TheBooks(), [], request, rest, first, failure, second);
      }
      AcceptTwice(first, failure, second);
      MergeToolResult(request, second);
    }

    /** Accept and record a result that cannot be merged, then the one that takes its place. */
    method AcceptTwice(first: ToolResult, failure: Thrown, second: ToolResult)
      modifies this`transcript, this`superseded, guard
      ensures TheBooks() == Redo(old(TheBooks()), first, failure, second)
    {
      guard.AcceptToolResult(first);
      Commit(ToolResultEntry(first, Some(failure)));
      superseded := superseded + [first.toolCallId];
      guard.AcceptToolResult(second);
      Commit(ToolResultEntry(second));
      assert transcript == old(transcript) + [ToolResultEntry(first, Some(failure)), ToolResultEntry(second)];
    }

    /** `flushPairingGuard` at an exit: afterwards nothing is waited for. */
    method CloseBooks(reason: string, ghost honest: bool)
      requires Ok(honest)
      modifies this`transcript, this`contextItems, this`itemSerial, this`itemHistory, guard
      ensures Ok(honest) && old(itemHistory) <= itemHistory && guard.pendingCalls == []
    {
      FlushCovers(TheBooks(), reason);
      if honest {
        FlushSound(TheBooks(), reason);
      }
      FlushPairingGuard(reason);
    }

    // ------------------------------------------------------------------- dispatching

    method ParseToolUseRequests(reply: Reply) returns (requests: seq<ToolRequest>, invalidArgs: map<string, string>)
      ensures requests == Requests(reply) && invalidArgs == InvalidArgs(reply.toolCalls)
    {
      requests, invalidArgs := [], map[];
      for i := 0 to |reply.toolCalls|
        invariant requests == Requests(reply)[..i]
        invariant invalidArgs == InvalidArgs(reply.toolCalls[..i])
      {
        var c := reply.toolCalls[i];
        assert reply.toolCalls[..i + 1][..i] == reply.toolCalls[..i];
        if c.args.Parsed? {
          requests := requests + [ToolRequest(c.id, c.name, c.args.params)];
        } else {
          invalidArgs := invalidArgs[c.id := c.args.error];
          requests := requests + [ToolRequest(c.id, c.name, "{}")];
        }
      }
      assert reply.toolCalls[..|reply.toolCalls|] == reply.toolCalls;
    }

    /** The raw results of a batch by call id. */
    static method CollectExec(outcome: DispatchOutcome, batch: seq<ToolRequest>) returns (exec: map<string, ExecResult>)
      ensures exec == BatchExec(outcome, batch)
    {
      exec := map[];
      if outcome.DispatchReturned? {
        for i := 0 to |batch|
          invariant exec == ExecMap(outcome.results, batch, i)
        {
          if i < |outcome.results| && outcome.results[i].Some? {
            var raw := outcome.results[i].value;
            exec := exec[raw.reportedId.GetOr(batch[i].toolCallId) := raw];
          }
        }
      }
    }

    /** Deliver one more result of a batch; one that cannot be merged is accepted and recorded all the same. */
    method DeliverNext(request: ToolRequest, result: ToolResult, fault: Option<Thrown>,
                       ghost base: Books, ghost results: seq<ToolResult>, ghost n: nat)
      requires ItemsTracked() && n < |results| && result == results[n] && AnsweredUpTo(base, results, n, TheBooks())
      modifies this`transcript, this`contextItems, this`itemSerial, this`itemHistory, guard
      ensures ItemsTracked() && AnsweredUpTo(base, results, n + 1, TheBooks())
      ensures if fault.None? then Merged(old(itemHistory), request, result) else itemHistory == old(itemHistory)
    {
      AnsweredNext(base, results, n, TheBooks());
      Accept(result);
      if fault.None? {
        MergeToolResult(request, result);
      }
    }

    /**
     `dispatchExternalBatch`: one result per buffered call, in order, up to the
     first that cannot be merged; true when all of them ask to terminate.
     */
    method DispatchExternalBatch(batch: seq<ToolRequest>, outcome: DispatchOutcome)
        returns (allTerminated: bool, thrown: Option<Thrown>)
      requires ItemsTracked()
      modifies this`transcript, this`contextItems, this`itemSerial, this`itemHistory, guard
      ensures ItemsTracked() && old(itemHistory) <= itemHistory
      ensures |itemHistory| == |old(itemHistory)| + Committed(outcome, batch) - (if thrown.Some? then 1 else 0)
      ensures TheBooks() == Answer(old(TheBooks()), BatchResults(outcome, batch)[..Committed(outcome, batch)])
      ensures thrown == BatchThrows(outcome, batch)
      ensures thrown.None? ==> (allTerminated <==> AllTerminate(outcome, batch))
    {
      var exec := CollectExec(outcome, batch);
      allTerminated, thrown := DeliverBatch(batch, outcome, exec, BatchResults(outcome, batch), Faults(outcome, batch),
                                            FirstFault(Faults(outcome, batch)));
      assert Open(0);
    }

    /** The loop over a batch whose raw results are known. */
    method DeliverBatch(batch: seq<ToolRequest>, outcome: DispatchOutcome, exec: map<string, ExecResult>,
                        ghost results: seq<ToolResult>, ghost faults: seq<Option<Thrown>>, ghost first: nat)
      returns (allTerminated: bool, thrown: Option<Thrown>)
      requires ItemsTracked() && |results| == |faults| == |batch|
      requires forall i {:trigger BatchAt(outcome, exec, batch, results, faults, i)} :: 0 <= i < |batch| ==>
                 BatchAt(outcome, exec, batch, results, faults, i)
      requires first <= |batch| && (first < |batch| ==> faults[first].Some?)
      requires forall k :: 0 <= k < first ==> faults[k].None?
      modifies this`transcript, this`contextItems, this`itemSerial, this`itemHistory, guard
      ensures ItemsTracked() && old(itemHistory) <= itemHistory && |itemHistory| == |old(itemHistory)| + first
      ensures AnsweredUpTo(old(TheBooks()), results, if first < |batch| then first + 1 else first, TheBooks())
      ensures thrown == if first < |batch| then faults[first] else None
      ensures thrown.None? ==> (allTerminated <==> batch != [] && forall i :: 0 <= i < |batch| ==> results[i].terminate)
    {
      allTerminated := batch != [];
      AnsweredStart(TheBooks(), results);
      for i := 0 to |batch|
        invariant ItemsTracked() && old(itemHistory) <= itemHistory && |itemHistory| == |old(itemHistory)| + i
        invariant AnsweredUpTo(old(TheBooks()), results, i, TheBooks())
        invariant i <= first
        invariant allTerminated <==> batch != [] && forall k :: 0 <= k < i ==> results[k].terminate
      {
        var result := BatchResult(outcome, exec, batch[i]);
        allTerminated := allTerminated && result.terminate;
        thrown := FaultAt(outcome, result, i);
        assert BatchAt(outcome, exec, batch, results, faults, i);
        DeliverNext(batch[i], result, thrown, old(TheBooks()), results, i);
        if thrown.Some? {
          return;
        }
      }
      thrown := None;
    }

    /** Dispatch the buffered calls, which are the first ones waited for. */
    method FlushBatch(batch: seq<ToolRequest>, outcome: DispatchOutcome,
                      ghost rest: seq<ToolRequest>, ghost honest: bool)
                          returns (allTerminated: bool, thrown: Option<Thrown>)
      requires Ok(honest)
      requires honest ==> guard.pendingCalls == batch + rest
      modifies this`transcript, this`contextItems, this`itemSerial, this`itemHistory, this`effects, guard
      ensures Ok(honest) && old(itemHistory) <= itemHistory
      ensures honest && thrown.None? ==> guard.pendingCalls == rest
      ensures effects == old(effects) + DispatchEffects(batch)
      ensures thrown == BatchThrows(outcome, batch)
      ensures thrown.None? ==> (allTerminated <==> AllTerminate(outcome, batch))
    {
      ghost var n, results := Committed(outcome, batch), BatchResults(outcome, batch);
      AnswerCovers(TheBooks(), results[..n]);
      if honest {
        ResultKeysPrefix(results, batch, n);
        assert guard.pendingCalls == [] + batch[..n] + (batch[n..] + rest);
        AnswerSound(TheBooks(), [], batch[..n], batch[n..] + rest, results[..n]);
        assert n == |batch| ==> [] + (batch[n..] + rest) == rest;
      }
      Perform(DispatchEffects(batch), honest);
      allTerminated, thrown := DispatchExternalBatch(batch, outcome);
    }

    /** Note that calls are now being dispatched or handled. */
    method Perform(ghost more: seq<Effect>, ghost honest: bool)
      requires Ok(honest)
      modifies this`effects
      ensures Ok(honest) && TheBooks() == old(TheBooks()) && effects == old(effects) + more
    {
      effects := effects + more;
    }

    // ----------------------------------------------------------------- the tool loop

    /** Run the internal handler; an answer that throws while it is recorded is answered for again. */
    method CallHandler(request: ToolRequest, outcome: HandlerOutcome, ghost rest: seq<ToolRequest>, ghost honest: bool)
      requires Ok(honest)
      requires honest ==> guard.pendingCalls == [request] + rest && HonestAnswer(outcome, request)
      modifies this`transcript, this`superseded, this`contextItems, this`itemSerial, this`itemHistory, this`effects,
               guard
      ensures Ok(honest) && old(itemHistory) <= itemHistory
      ensures honest ==> guard.pendingCalls == rest
      ensures transcript == old(transcript) + HandlerEntries(request, outcome)
      ensures superseded == old(superseded) + (if HandlerFault(outcome).Some? then [outcome.result.toolCallId] else [])
      ensures effects == old(effects) + [Handled(request)]
    {
      Perform([Handled(request)], honest);
      assert [request] + rest == [] + ([request] + rest) && [] + rest == rest;
      if outcome.HandlerThrew? {
        AnswerInOrder(request, HandlerError(request, outcome.message), [], rest, honest);
      } else if HandlerFault(outcome).None? {
        AnswerInOrder(request, outcome.result, [], rest, honest);
      } else {
        var failure := HandlerFault(outcome).value;
        RedoInOrder(request, outcome.result, failure, HandlerError(request, failure.message), rest, honest);
      }
    }

    /** Dispatch what is buffered, then run the internal handler for `request`, which may end the run. */
    method RunHandler(batch: seq<ToolRequest>, stopping: bool, request: ToolRequest, dispatch: DispatchOutcome,
                      outcome: HandlerOutcome,
                      aborted: bool, ghost rest: seq<ToolRequest>, ghost honest: bool) returns (stop: bool, exit: Exit)
      requires Ok(honest)
      requires honest ==> guard.pendingCalls == batch + ([request] + rest) && HonestAnswer(outcome, request)
      modifies this`transcript, this`superseded, this`contextItems, this`itemSerial, this`itemHistory, this`effects,
               guard
      ensures Ok(honest) && old(itemHistory) <= itemHistory
      ensures var c := HandlerStep(request, batch, stopping, dispatch, outcome, aborted);
              && stop == c.stopping && exit == c.exit
              && superseded == old(superseded) + c.spoiled && effects == old(effects) + c.done
      ensures exit == Continue && honest ==> guard.pendingCalls == rest
      ensures exit.Return? ==> guard.pendingCalls == []
    {
      stop := stopping;
      var _, thrown := FlushBatch(batch, dispatch, [request] + rest, honest);
      if thrown.Some? {
        return stop, Throw(thrown.value);
      }
      stop := stopping || AsksToStop(outcome);
      exit := HandledExit(stop, outcome, aborted);
      CallHandler(request, outcome, rest, honest);
      assert effects == old(effects) + (DispatchEffects(batch) + [Handled(request)]);
      if exit.Return? {
        CloseBooks(if exit.status == Completed then "internal_handler_stop" else "cancelled", honest);
      }
    }

    /** Where an announced call goes. */
    method RouteCall(request: ToolRequest, invalidArgs: map<string, string>, batch: seq<ToolRequest>, stopping: bool,
                     dispatch: DispatchOutcome, handler: HandlerOutcome, aborted: bool,
                     ghost rest: seq<ToolRequest>, ghost honest: bool)
      returns (buffered: seq<ToolRequest>, stop: bool, exit: Exit)
      requires Ok(honest)
      requires honest ==> guard.pendingCalls == batch + ([request] + rest) && HonestAnswer(handler, request)
      modifies this`transcript, this`superseded, this`contextItems, this`itemSerial, this`itemHistory, this`effects,
               guard
      ensures Ok(honest) && old(itemHistory) <= itemHistory
      ensures var c := StepCall(input, request, invalidArgs, batch, stopping, dispatch, handler, aborted);
              && buffered == c.buffer && stop == c.stopping && exit == c.exit
              && superseded == old(superseded) + c.spoiled && effects == old(effects) + c.done
      ensures exit == Continue && honest ==> guard.pendingCalls == buffered + rest
      ensures exit.Return? ==> guard.pendingCalls == []
      ensures Admit(input, request, invalidArgs) == [] ==>
                transcript == old(transcript) + [ToolResultEntry(AdmissionError(request, invalidArgs))]
    {
      buffered, stop, exit := batch, stopping, Continue;
      assert superseded + [] == superseded && effects + [] == effects;
      if request.toolCallId in invalidArgs {
        AnswerInOrder(request, AdmissionError(request, invalidArgs), batch, rest, honest);
      } else if request.toolName in input.internalHandlers {
        stop, exit := RunHandler(batch, stopping, request, dispatch, handler, aborted, rest, honest);
        buffered := [];
        assert [] + rest == rest;
      } else if !input.Callable(request.toolName) {
        AnswerInOrder(request, AdmissionError(request, invalidArgs), batch, rest, honest);
      } else {
        assert (batch + [request]) + rest == batch + ([request] + rest);
        buffered := batch + [request];
      }
    }

    /**
     The `n`-th call of a reply: announced, then refused on the spot, handled
     internally after the buffered calls were dispatched, or buffered itself.
     */
    method ProcessCall(requests: seq<ToolRequest>, n: nat, invalidArgs: map<string, string>, batch: seq<ToolRequest>,
                       stopping: bool, turn: Turn, ghost honest: bool)
      returns (buffered: seq<ToolRequest>, stop: bool, exit: Exit, ghost c: Loop)
      requires Ok(honest) && n < |requests| && silent == requests[n..]
      requires honest ==> guard.pendingCalls == batch + requests[n..] && HonestHandlers(turn, requests)
      modifies this`transcript, this`silent, this`superseded, this`contextItems, this`itemSerial, this`itemHistory,
               this`effects, guard
      ensures Ok(honest) && old(itemHistory) <= itemHistory && silent == requests[n + 1..]
      ensures Steps(input, requests, invalidArgs, turn, n, batch, stopping, c)
      ensures buffered == c.buffer && stop == c.stopping && exit == c.exit
      ensures superseded == old(superseded) + c.spoiled && effects == old(effects) + c.done
      ensures exit == Continue && honest ==> guard.pendingCalls == buffered + requests[n + 1..]
      ensures exit.Return? ==> guard.pendingCalls == []
    {
      ghost var rest := requests[n + 1..];
      assert requests[n..] == [requests[n]] + rest;
      c := StepCall(input, requests[n], invalidArgs, batch, stopping, turn.dispatches(n), turn.handlers(n),
                    turn.abortedAfterHandler(n));
      Announce(requests[n], rest, honest);
      buffered, stop, exit := RouteCall(requests[n], invalidArgs, batch, stopping, turn.dispatches(n), turn.handlers(n),
                                        turn.abortedAfterHandler(n), rest, honest);
    }

    /** Call after call of one reply, up to the first that ends the loop. */
    method ProcessEach(requests: seq<ToolRequest>, invalidArgs: map<string, string>, turn: Turn, ghost honest: bool)
      returns (batch: seq<ToolRequest>, exit: Exit, ghost seen: nat, ghost s: Loop)
      requires Ok(honest) && silent == requests
      requires honest ==> guard.pendingCalls == requests && HonestHandlers(turn, requests)
      modifies this`transcript, this`silent, this`superseded, this`contextItems, this`itemSerial, this`itemHistory,
               this`effects, guard
      ensures Ok(honest) && old(itemHistory) <= itemHistory
      ensures EndedAt(input, requests, invalidArgs, turn, seen, s) && silent == requests[seen..]
      ensures batch == s.buffer && exit == s.exit
      ensures superseded == old(superseded) + s.spoiled && effects == old(effects) + s.done
      ensures exit == Continue && honest ==> guard.pendingCalls == batch
      ensures exit.Return? ==> guard.pendingCalls == []
    {
      var stopping := false;
      batch, exit, seen, s := [], Continue, 0, LoopStart;
      LoopAtStart(input, requests, invalidArgs, turn);
      for i := 0 to |requests|
        invariant seen == i && exit == Continue == s.exit && LoopAt(input, requests, invalidArgs, turn, i, s)
        invariant batch == s.buffer && stopping == s.stopping
        invariant superseded == old(superseded) + s.spoiled && effects == old(effects) + s.done
        invariant Ok(honest) && old(itemHistory) <= itemHistory && silent == requests[i..]
        invariant honest ==> guard.pendingCalls == batch + requests[i..]
      {
        ghost var c;
        batch, stopping, exit, c := ProcessCall(requests, i, invalidArgs, batch, stopping, turn, honest);
        LoopAtNext(input, requests, invalidArgs, turn, i, s, c);
        Extend(old(superseded), s.spoiled, c.spoiled);
        Extend(old(effects), s.done, c.done);
        s, seen := LoopNext(s, c), i + 1;
        if exit != Continue {
          return;
        }
      }
      assert batch + requests[|requests|..] == batch;
    }

    /** After the last call: dispatch what is still buffered, then answer whatever is left. */
    method FinishReply(batch: seq<ToolRequest>, outcome: DispatchOutcome, ghost honest: bool) returns (exit: Exit)
      requires Ok(honest)
      requires honest ==> guard.pendingCalls == batch
      modifies this`transcript, this`contextItems, this`itemSerial, this`itemHistory, this`effects, guard
      ensures Ok(honest) && old(itemHistory) <= itemHistory
      ensures effects == old(effects) + DispatchEffects(batch) && exit == BatchExit(outcome, batch)
      ensures !exit.Throw? ==> guard.pendingCalls == []
    {
      assert batch == batch + [];
      var allTerminated, thrown := FlushBatch(batch, outcome, [], honest);
      if thrown.Some? {
        return Throw(thrown.value);
      }
      CloseBooks("iteration_end", honest);
      exit := if allTerminated then Return(Completed) else Continue;
    }

    /**
     The tool loop over one reply that was not truncated. Ends with every call
     answered; or earlier when a handler asks to stop, the run is aborted, or the
     results of a batch cannot be merged.
     */
    method ProcessCalls(requests: seq<ToolRequest>, invalidArgs: map<string, string>, turn: Turn, ghost honest: bool)
      returns (exit: Exit)
      requires Ok(honest) && silent == requests
      requires honest ==> guard.pendingCalls == requests && HonestHandlers(turn, requests)
      modifies this`transcript, this`silent, this`superseded, this`contextItems, this`itemSerial, this`itemHistory,
               this`effects, guard
      ensures Ok(honest) && old(itemHistory) <= itemHistory
      ensures var s := LoopEnd(LoopAfter(input, requests, invalidArgs, turn, |requests|), turn.dispatches(|requests|));
              && exit == s.exit && superseded == old(superseded) + s.spoiled && effects == old(effects) + s.done
      ensures silent == [] <==> !LoopCut(input, requests, invalidArgs, turn)
      ensures !exit.Throw? ==> guard.pendingCalls == []
    {
      var batch;
      ghost var seen, s;
      batch, exit, seen, s := ProcessEach(requests, invalidArgs, turn, honest);
      EndedAtLast(input, requests, invalidArgs, turn, seen, s);
      if seen == |requests| {
        ReachedIsUncut(input, requests, invalidArgs, turn, s);
      } else {
        EndedEarlyIsCut(input, requests, invalidArgs, turn, seen, s);
      }
      if exit == Continue {
        Extend(old(effects), s.done, DispatchEffects(batch));
        exit := FinishReply(batch, turn.dispatches(|requests|), honest);
      }
    }

    /** Announce a call of a truncated reply and refuse it. */
    method RejectOne(request: ToolRequest, ghost rest: seq<ToolRequest>, ghost honest: bool)
      requires Ok(honest) && silent == [request] + rest
      requires honest ==> guard.pendingCalls == [request] + rest
      modifies this`transcript, this`silent, this`contextItems, this`itemSerial, this`itemHistory, guard
      ensures Ok(honest) && old(itemHistory) <= itemHistory && silent == rest
      ensures transcript == old(transcript) + [ToolCallEntry(request), ToolResultEntry(TruncationError(request))]
      ensures honest ==> guard.pendingCalls == rest
    {
      Announce(request, rest, honest);
      assert [request] + rest == [] + ([request] + rest) && [] + rest == rest;
      AnswerInOrder(request, TruncationError(request), [], rest, honest);
    }

    /** The truncation guard: every call of a truncated reply gets an error result, none is executed. */
    method RejectTruncated(requests: seq<ToolRequest>, ghost honest: bool)
      requires Ok(honest) && silent == requests
      requires honest ==> guard.pendingCalls == requests
      modifies this`transcript, this`silent, this`contextItems, this`itemSerial, this`itemHistory, guard
      ensures Ok(honest) && old(itemHistory) <= itemHistory && silent == []
      ensures transcript == old(transcript) + Rejections(requests)
      ensures honest ==> guard.pendingCalls == []
    {
      for i := 0 to |requests|
        invariant Ok(honest) && old(itemHistory) <= itemHistory && silent == requests[i..]
        invariant transcript == old(transcript) + Rejections(requests[..i])
        invariant honest ==> guard.pendingCalls == requests[i..]
      {
        assert requests[i..] == [requests[i]] + requests[i + 1..];
        RejectOne(requests[i], requests[i + 1..], honest);
        RejectionsNext(requests, i);
      }
      assert requests[..|requests|] == requests;
    }

    /** Parse the calls of a reply, record them and wait for them. */
    method TrackCalls(reply: Reply, ghost before: Books)
        returns (requests: seq<ToolRequest>, invalidArgs: map<string, string>)
      requires Valid() && before.pending == [] && before.silent == []
      requires TheBooks() == Record(before, LlmResponse(reply))
      modifies this`toolCalls, this`silent, guard
      ensures Valid() && toolCalls == old(toolCalls) + requests && silent == requests
      ensures requests == Requests(reply) && invalidArgs == InvalidArgs(reply.toolCalls)
      ensures Sound(before) && Distinct(CallIds(reply.toolCalls)) ==>
                Sound(TheBooks()) && guard.pendingCalls == requests
    {
      requests, invalidArgs := ParseToolUseRequests(reply);
      TrackReply(before, reply);
      toolCalls, silent := toolCalls + requests, silent + requests;
      guard.TrackAssistantToolCalls(requests);
      assert TheBooks() == Track(Record(before, LlmResponse(reply)), requests);
    }

    /** A truncated reply: its calls are refused, and the run goes on. */
    method AnswerTruncated(requests: seq<ToolRequest>, ghost honest: bool)
      requires Ok(honest) && silent == requests
      requires honest ==> guard.pendingCalls == requests
      modifies this`transcript, this`silent, this`contextItems, this`itemSerial, this`itemHistory, guard
      ensures Ok(honest) && old(itemHistory) <= itemHistory && silent == [] && guard.pendingCalls == []
    {
      RejectTruncated(requests, honest);
      CloseBooks("iteration_end", honest);
    }

    /** What happens to the calls of a reply: refused as a whole if it was truncated, processed one by one otherwise. */
    method AnswerCalls(reply: Reply, turn: Turn, ghost before: Books) returns (exit: Exit)
      requires Valid() && before.pending == [] && before.silent == []
      requires TheBooks() == Record(before, LlmResponse(reply))
      modifies this`toolCalls, this`transcript, this`silent, this`superseded, this`contextItems, this`itemSerial,
               this`itemHistory, this`effects, guard
      ensures Ok(Sound(before) && HonestReply(turn, reply)) && old(itemHistory) <= itemHistory
      ensures toolCalls == old(toolCalls) + Requests(reply)
      ensures var s := CallsOutcome(input, reply, turn);
              && exit == s.exit && superseded == old(superseded) + s.spoiled && effects == old(effects) + s.done
      ensures silent == [] <==> !CutShort(input, reply, turn)
      ensures !exit.Throw? ==> guard.pendingCalls == []
    {
      var requests, invalidArgs := TrackCalls(reply, before);
      ghost var honest := Sound(before) && HonestReply(turn, reply);
      if reply.truncated {
        AnswerTruncated(requests, honest);
        exit := Continue;
        assert superseded + [] == superseded && effects + [] == effects;
      } else {
        exit := ProcessCalls(requests, invalidArgs, turn, honest);
      }
    }

    // --------------------------------------------------------------------- compaction

    /** `executeCompact`: apply the executor's answer unless it names a protected item. */
    method ExecuteCompact(outcome: CompactOutcome) returns (applied: bool)
      requires ItemsTracked()
      modifies this`contextItems, this`itemHistory, this`compactedItemIds, this`compactedToolCallIds,
               this`lastCompactSummaryItem
      ensures ItemsTracked() && old(itemHistory) <= itemHistory
      ensures applied <==> Applies(outcome, old(contextItems), input.MustKeep())
      ensures !applied ==> itemHistory == old(itemHistory) && compactedToolCallIds == old(compactedToolCallIds)
                           && contextItems == old(contextItems) && compactedItemIds == old(compactedItemIds)
      ensures applied ==>
                var ids := set id | id in outcome.compactedItemIds;
                && itemHistory == old(itemHistory) + [Compacted(ids)] + [Added(outcome.summary)]
                && compactedItemIds == old(compactedItemIds) + ids
                && compactedToolCallIds == old(compactedToolCallIds) + CompactedCalls(old(contextItems), ids)
                && lastCompactSummaryItem == Some(outcome.summary)
    {
      if !outcome.Applied? {
        return false;
      }
      var ids := set id | id in outcome.compactedItemIds;
      if !(ids !! ProtectedIds(contextItems, input.MustKeep())) {
        return false;
      }
      var kept, calls := SplitItems(contextItems, ids);
      TracksCompact(contextItems, itemHistory, input.MustKeep(), ids, outcome.summary);
      itemHistory := itemHistory + [Compacted(ids)] + [Added(outcome.summary)];
      contextItems := kept + [outcome.summary];
      compactedToolCallIds := compactedToolCallIds + calls;
      compactedItemIds := compactedItemIds + ids;
      lastCompactSummaryItem := Some(outcome.summary);
      applied := true;
    }

    /** Compaction is not due now, or was just attempted. */
    ghost predicate CompactionChecked()
      reads this
    {
      || !CompactTriggered(contextItems, input.compactBudget, input.compactThreshold, input.compactHints)
      || (transcript != [] && transcript[|transcript| - 1].CompactEntry?)
    }

    /** After a reply whose calls were taken up in full, the run goes on only once compaction was checked. */
    ghost predicate GoesOnChecked(exit: Exit, reply: Option<Reply>)
      reads this
    {
      exit == Continue && reply.Some? && !reply.value.truncated ==> CompactionChecked()
    }

    /** The compaction check after a reply's calls were handled. */
    method MaybeCompact(outcome: CompactOutcome, ghost honest: bool)
      requires Ok(honest)
      modifies this`transcript, this`contextItems, this`itemHistory, this`compactedItemIds, this`compactedToolCallIds,
               this`lastCompactSummaryItem
      ensures Ok(honest) && old(itemHistory) <= itemHistory
      ensures var triggered :=
                CompactTriggered(old(contextItems), input.compactBudget, input.compactThreshold, input.compactHints);
              var applied := triggered && input.hasCompactExecutor
                  && Applies(outcome, old(contextItems), input.MustKeep());
              && transcript == (if triggered then old(transcript) + [CompactEntry(applied)] else old(transcript))
              && (applied ==>
                    var ids := set id | id in outcome.compactedItemIds;
                    && itemHistory == old(itemHistory) + [Compacted(ids)] + [Added(outcome.summary)]
                    && compactedToolCallIds == old(compactedToolCallIds) + CompactedCalls(old(contextItems), ids))
              && (!applied ==> itemHistory == old(itemHistory) && contextItems == old(contextItems)
                               && compactedToolCallIds == old(compactedToolCallIds))
      ensures CompactionChecked()
    {
      if CompactTriggered(contextItems, input.compactBudget, input.compactThreshold, input.compactHints) {
        var applied := false;
        if input.hasCompactExecutor {
          applied := ExecuteCompact(outcome);
        }
        RecordCovers(TheBooks(), CompactEntry(applied));
        if honest {
          RecordSound(TheBooks(), CompactEntry(applied));
        }
        Commit(CompactEntry(applied));
      }
    }

    // ---------------------------------------------------------------------- iterations

    /** What taking up a reply did: nothing, or what its calls come to. */
    ghost predicate Did(wasCalls: seq<ToolRequest>, wasDone: seq<Effect>, wasSuperseded: seq<string>,
                        reply: Option<Reply>, turn: Turn)
      reads this
    {
      if reply.None? then toolCalls == wasCalls && effects == wasDone && superseded == wasSuperseded && silent == []
      else
        var s := CallsOutcome(input, reply.value, turn);
        && toolCalls == wasCalls + Requests(reply.value) && effects == wasDone + s.done
            && superseded == wasSuperseded + s.spoiled
        && (silent == [] <==> !CutShort(input, reply.value, turn))
    }

    /** Record the request with the message list rebuilt for it. */
    method RecordRequest(messages: seq<Message>, ghost honest: bool)
      requires Ok(honest) && guard.pendingCalls == []
      requires messages == Replay(transcript, Transcript.Answered(transcript), compactedToolCallIds, input.toolLoopV2)
      requires input.steadySerialiser ==> AllHidden(transcript, compactedToolCallIds)
      modifies this`transcript
      ensures Ok(honest) && transcript == old(transcript) + [LlmRequest(messages)]
    {
      if input.steadySerialiser {
        HiddenIsNotShown(transcript, Transcript.Answered(transcript), compactedToolCallIds, input.toolLoopV2);
      }
      RequestCovers(TheBooks(), messages);
      if honest {
        RequestSound(TheBooks(), compactedToolCallIds, input.toolLoopV2);
      }
      Commit(LlmRequest(messages));
    }

    /** What throws when it is serialised again was superseded before. */
    lemma RebuildThrowsOnlyAfterFailure(thrown: Thrown)
      requires Valid() && RebuildThrows(transcript, compactedToolCallIds) == Some(thrown)
      ensures superseded != []
    {
      assert Open(0);
      RebuildThrowsIff(transcript, compactedToolCallIds);
    }

    /** Record an error entry. */
    method RecordError(message: string, ghost honest: bool)
      requires Ok(honest)
      modifies this`transcript
      ensures Ok(honest)
    {
      RecordCovers(TheBooks(), ErrorEntry(message));
      if honest {
        RecordSound(TheBooks(), ErrorEntry(message));
      }
      Commit(ErrorEntry(message));
    }

    /** A reply with calls: answer them, then compact if the reply was not truncated and the run goes on. */
    method HandleCallingReply(reply: Reply, turn: Turn, ghost before: Books) returns (exit: Exit)
      requires Valid() && before.pending == [] && before.silent == []
      requires TheBooks() == Record(before, LlmResponse(reply))
      modifies this`toolCalls, this`transcript, this`silent, this`superseded, this`contextItems, this`itemSerial,
               this`itemHistory, this`effects,
               this`compactedItemIds, this`compactedToolCallIds, this`lastCompactSummaryItem, guard
      ensures Ok(Sound(before) && HonestReply(turn, reply)) && old(itemHistory) <= itemHistory
      ensures exit == CallsOutcome(input, reply, turn).exit
      ensures Did(old(toolCalls), old(effects), old(superseded), Some(reply), turn)
      ensures GoesOnChecked(exit, Some(reply))
      ensures !exit.Throw? ==> guard.pendingCalls == []
      ensures !input.hasCompactExecutor ==> compactedToolCallIds == old(compactedToolCallIds)
    {
      exit := AnswerCalls(reply, turn, before);
      if exit == Continue && !reply.truncated {
        MaybeCompact(turn.compaction, Sound(before) && HonestReply(turn, reply));
      }
    }

    /** A reply without calls: an answer to check, reasoning alone, or nothing. */
    method HandlePlainReply(reply: Reply, turn: Turn, ghost honest: bool) returns (exit: Exit)
      requires Ok(honest) && reply.toolCalls == [] && !turn.abortedAfterReply
      modifies this`transcript
      ensures Ok(honest) && exit == ReplyExit(input, reply, turn)
    {
      if reply.content != "" {
        if !turn.contentValid {
          RecordError("output contract", honest);
          return Return(Failed);
        }
        return Return(Completed);
      }
      exit := if reply.reasoning != "" then Return(Completed) else Continue;
    }

    /** Record the reply; without calls it leaves nothing open. */
    method RecordReply(reply: Reply)
      requires Valid() && guard.pendingCalls == []
      modifies this`transcript
      ensures Valid() && TheBooks() == Record(old(TheBooks()), LlmResponse(reply))
      ensures old(Sound(TheBooks())) ==> Balanced(reply.toolCalls != [])
    {
      ghost var before := TheBooks();
      RecordCovers(before, LlmResponse(reply));
      if Sound(before) {
        if reply.toolCalls == [] {
          PlainReplySound(before, reply);
        } else {
          DroppedReplyUnpaired(before, reply);
        }
      }
      Commit(LlmResponse(reply));
    }

    /** The rest of an iteration once the model has replied. */
    method HandleReply(reply: Reply, turn: Turn) returns (exit: Exit)
      requires Valid() && guard.pendingCalls == [] && silent == []
      modifies this`toolCalls, this`transcript, this`silent, this`superseded, this`contextItems, this`itemSerial,
               this`itemHistory, this`effects,
               this`compactedItemIds, this`compactedToolCallIds, this`lastCompactSummaryItem, guard
      ensures Valid() && old(itemHistory) <= itemHistory && (!exit.Throw? ==> guard.pendingCalls == [])
      ensures exit == ReplyExit(input, reply, turn)
      ensures Did(old(toolCalls), old(effects), old(superseded),
                  if turn.abortedAfterReply || reply.toolCalls == [] then None else Some(reply), turn)
      ensures reply.toolCalls != [] ==> GoesOnChecked(exit, Some(reply))
      ensures old(Sound(TheBooks())) && HonestReply(turn, reply) ==>
                Balanced(turn.abortedAfterReply && reply.toolCalls != [])
      ensures !input.hasCompactExecutor ==> compactedToolCallIds == old(compactedToolCallIds)
    {
      ghost var before := TheBooks();
      RecordReply(reply);
      if turn.abortedAfterReply {
        FlushNothing("cancelled");
        return Return(Cancelled);
      }
      if reply.toolCalls != [] {
        exit := HandleCallingReply(reply, turn, before);
      } else {
        exit := HandlePlainReply(reply, turn, Sound(before));
      }
    }

    /** `flushPairingGuard` when nothing is waited for returns at once. */
    method FlushNothing(reason: string)
      requires Valid() && guard.pendingCalls == []
      modifies this`transcript, this`contextItems, this`itemSerial, this`itemHistory, guard
      ensures Valid() && TheBooks() == old(TheBooks()) && old(itemHistory) <= itemHistory
    {
      FlushCovers(TheBooks(), reason);
      FlushPairingGuard(reason);
      assert transcript == old(transcript) + [];
    }

    /** Call the model and take up its answer. */
    method CallAndHandle(turn: Turn) returns (exit: Exit)
      requires Valid() && guard.pendingCalls == [] && silent == []
      modifies this`toolCalls, this`transcript, this`silent, this`superseded, this`contextItems, this`itemSerial,
               this`itemHistory, this`effects,
               this`compactedItemIds, this`compactedToolCallIds, this`lastCompactSummaryItem, guard
      ensures Valid() && old(itemHistory) <= itemHistory && (!exit.Throw? ==> guard.pendingCalls == [])
      ensures exit == AnswerExit(input, turn)
      ensures CallModel(turn).Got? && CallModel(turn).reply.toolCalls != [] ==>
                GoesOnChecked(exit, Some(CallModel(turn).reply))
      ensures var reply := CallModel(turn);
              && Did(old(toolCalls), old(effects), old(superseded),
                     if !reply.Got? || turn.abortedAfterReply || reply.reply.toolCalls == [] then None
                         else Some(reply.reply), turn)
              && (old(Sound(TheBooks())) && HonestTurn(turn) ==>
                  Balanced(reply.Got? && turn.abortedAfterReply && reply.reply.toolCalls != []))
      ensures !input.hasCompactExecutor ==> compactedToolCallIds == old(compactedToolCallIds)
    {
      ghost var honest := Sound(TheBooks());
      match CallModel(turn) {
        case Threw(thrown) => exit := Throw(thrown);
        case StreamTimedOut =>
          FlushNothing("timeout");
          exit := Return(Failed);
        case EmptyCompletion => exit := Return(Completed);
        case Errored(message) =>
          FlushNothing("llm_error");
          RecordError(message, honest);
          exit := Return(Failed);
        case Got(reply) => exit := HandleReply(reply, turn);
      }
    }

    /**
     A turn as the kernel lives it: with a steady serialiser, rebuilding the message
     list throws exactly if a result that failed before is still visible.
     */
    ghost function AsLived(turn: Turn): Turn
      reads this
    {
      var thrown := RebuildThrows(transcript, compactedToolCallIds);
      if input.steadySerialiser && thrown.Some? && !turn.abortedAtStart && !turn.timedOut
      then turn.(buildThrows := thrown)
      else turn
    }

    /** One iteration of the loop; `lived` is the turn with what rebuilding the message list threw, if it did. */
    method RunIteration(iteration: nat, turn: Turn) returns (exit: Exit, ghost lived: Turn)
      requires Valid() && guard.pendingCalls == [] && silent == [] && currentIteration == iteration
      modifies this, guard
      ensures Valid() && old(itemHistory) <= itemHistory && (!exit.Throw? ==> guard.pendingCalls == [])
      ensures currentIteration == if turn.abortedAtStart then iteration else iteration + 1
      ensures lived == old(AsLived(turn))
      ensures lived != turn ==> input.steadySerialiser && old(superseded) != [] && exit.Throw?
      ensures exit == IterationExit(input, lived)
      ensures Did(old(toolCalls), old(effects), old(superseded), TakenUp(lived), lived)
      ensures GoesOnChecked(exit, TakenUp(lived))
      ensures old(Sound(TheBooks())) && (turn.abortedAtStart || HonestTurn(turn)) ==> Balanced(Drops(lived))
      ensures !input.hasCompactExecutor ==> compactedToolCallIds == old(compactedToolCallIds)
    {
      lived := turn;
      if turn.abortedAtStart {
        FlushNothing("cancelled");
        return Return(Cancelled), lived;
      }
      currentIteration := iteration + 1;
      if turn.timedOut {
        FlushNothing("timeout");
        return Return(TimedOut), lived;
      }
      exit, lived := BuildAndCall(turn);
    }

    /**
     The rest of an iteration: rebuild the message list, record the request, call the
     model and take up its answer.
     */
    method BuildAndCall(turn: Turn) returns (exit: Exit, ghost lived: Turn)
      requires Valid() && guard.pendingCalls == [] && silent == [] && !turn.abortedAtStart && !turn.timedOut
      modifies this`toolCalls, this`transcript, this`silent, this`superseded, this`contextItems, this`itemSerial,
               this`itemHistory, this`effects, this`compactedItemIds, this`compactedToolCallIds,
               this`lastCompactSummaryItem, guard
      ensures Valid() && old(itemHistory) <= itemHistory && (!exit.Throw? ==> guard.pendingCalls == [])
      ensures lived == old(AsLived(turn))
      ensures lived != turn ==> input.steadySerialiser && old(superseded) != [] && exit.Throw?
      ensures exit == IterationExit(input, lived)
      ensures Did(old(toolCalls), old(effects), old(superseded), TakenUp(lived), lived)
      ensures GoesOnChecked(exit, TakenUp(lived))
      ensures old(Sound(TheBooks())) && HonestTurn(turn) ==> Balanced(Drops(lived))
      ensures !input.hasCompactExecutor ==> compactedToolCallIds == old(compactedToolCallIds)
    {
      lived := turn;
      var messages, thrown :=
        BuildTranscriptMessages(transcript, compactedToolCallIds, input.toolLoopV2, input.steadySerialiser);
      if thrown.Some? {
        RebuildThrowsOnlyAfterFailure(thrown.value);
        return Throw(thrown.value), turn.(buildThrows := thrown);
      }
      if turn.buildThrows.Some? {
        return Throw(turn.buildThrows.value), lived;
      }
      exit := RequestAndCall(turn, messages);
    }

    /** Record the request, then call the model unless the run was aborted. */
    method RequestAndCall(turn: Turn, messages: seq<Message>) returns (exit: Exit)
      requires Valid() && guard.pendingCalls == [] && silent == []
      requires messages == Replay(transcript, Transcript.Answered(transcript), compactedToolCallIds, input.toolLoopV2)
      requires input.steadySerialiser ==> AllHidden(transcript, compactedToolCallIds)
      requires !turn.abortedAtStart && !turn.timedOut && turn.buildThrows.None?
      modifies this`toolCalls, this`transcript, this`silent, this`superseded, this`contextItems, this`itemSerial,
               this`itemHistory, this`effects, this`compactedItemIds, this`compactedToolCallIds,
               this`lastCompactSummaryItem, guard
      ensures Valid() && old(itemHistory) <= itemHistory && (!exit.Throw? ==> guard.pendingCalls == [])
      ensures exit == IterationExit(input, turn)
      ensures Did(old(toolCalls), old(effects), old(superseded), TakenUp(turn), turn)
      ensures GoesOnChecked(exit, TakenUp(turn))
      ensures old(Sound(TheBooks())) && HonestTurn(turn) ==> Balanced(Drops(turn))
      ensures !input.hasCompactExecutor ==> compactedToolCallIds == old(compactedToolCallIds)
    {
      RecordRequest(messages, Sound(TheBooks()));
      if turn.abortedBeforeCall {
        FlushNothing("cancelled");
        return Return(Cancelled);
      }
      exit := CallAndHandle(turn);
    }

    // -------------------------------------------------------------------------- the run

    /** A run that goes on began every iteration so far, cut nothing short and dropped nothing. */
    static ghost predicate GoesOn(c: Course, n: nat) {
      c.iterations == n && !c.cut && !c.drops
    }

    /** Where a run stands that took the course `c`. */
    ghost predicate Stands(c: Course)
      reads this
    {
      && currentIteration == c.iterations && toolCalls == c.calls && effects == c.done && superseded == c.spoiled
      && (silent == [] <==> !c.cut)
    }

    /** One more iteration of a run that goes on. */
    method Iterate(turns: nat -> Turn, iteration: nat, ghost before: Course)
      returns (answer: Exit, ghost lived: Turn, ghost c: Course)
      requires Valid() && guard.pendingCalls == []
      requires CourseAt(Plans(input, turns), iteration, before) && before.exit == Continue
      requires Stands(before) && GoesOn(before, iteration)
      requires HonestUpTo(turns, iteration) ==> Balanced(false)
      modifies this, guard
      ensures Valid() && old(itemHistory) <= itemHistory && (!answer.Throw? ==> guard.pendingCalls == [])
      ensures LivedAs(turns(iteration), lived) && KernelSpec.Follows(input, before, lived, c)
      ensures lived != turns(iteration) ==>
                input.steadySerialiser && c.spoiled != [] && answer.Throw? && c.iterations == iteration + 1
      ensures answer == c.exit && Stands(c) && c.iterations <= iteration + 1 && (c.drops ==> answer.Return?)
      ensures answer == Continue ==> GoesOn(c, iteration + 1) && CourseAt(Plans(input, turns), iteration + 1, c)
      ensures HonestUpTo(turns, c.iterations) ==> Balanced(c.drops)
    {
      assert Balanced(false) ==> Sound(TheBooks());
      var turn := turns(iteration);
      answer, lived := RunIteration(iteration, turn);
      CourseAtNext(Plans(input, turns), iteration, before);
      c := CourseNext(before, PlanOf(input, lived));
      if answer == Continue {
        GoingOnIsUncut(input, lived);
      }
    }

    /** The bounded loop; `Continue` means that the iterations ran out. */
    method Loop(turns: nat -> Turn) returns (answer: Exit, ghost lived: nat -> Turn, ghost c: Course)
      requires Valid() && Sound(TheBooks()) && guard.pendingCalls == []
      requires toolCalls == [] && silent == [] && superseded == [] && effects == [] && currentIteration == 0
      modifies this, guard
      ensures Valid() && old(itemHistory) <= itemHistory && (!answer.Throw? ==> guard.pendingCalls == [])
      ensures Lived(input, turns, lived, c.iterations) && CourseAt(Plans(input, lived), input.Limit(), c)
      ensures c.spoiled == [] || !input.steadySerialiser ==> CourseAt(Plans(input, turns), input.Limit(), c)
      ensures answer == c.exit && Stands(c) && c.iterations <= input.Limit() && (c.drops ==> answer.Return?)
      ensures HonestUpTo(turns, c.iterations) ==> Balanced(c.drops)
    {
      var limit := input.Limit();
      answer, lived, c := Continue, turns, CourseStart;
      for iteration := 0 to limit
        invariant CourseAt(Plans(input, turns), iteration, c) && answer == Continue == c.exit && lived == turns
        invariant Stands(c) && GoesOn(c, iteration)
        invariant Valid() && old(itemHistory) <= itemHistory && guard.pendingCalls == []
        invariant HonestUpTo(turns, iteration) ==> Balanced(false)
      {
        ghost var was, before, last := itemHistory, c, turns(iteration);
        answer, last, c := Iterate(turns, iteration, before);
        PrefixTwice(old(itemHistory), was, itemHistory);
        if answer != Continue {
          CourseReplaced(input, turns, iteration, last, before, c, limit);
          lived := Replaced(turns, iteration, last);
          return;
        }
      }
    }

    /** The ways out of the loop that are left to the end of `run`: an exception, or no iteration left. */
    method CloseRun(answer: Exit, ghost honest: bool, ghost dropped: bool) returns (status: FinalStatus)
      requires Valid() && (answer.Return? ==> guard.pendingCalls == [])
      requires (honest ==> Balanced(dropped)) && (dropped ==> answer.Return?)
      modifies this`transcript, this`contextItems, this`itemSerial, this`itemHistory, guard
      ensures Valid() && guard.pendingCalls == [] && old(itemHistory) <= itemHistory
      ensures status == Conclude(answer) && (honest ==> Balanced(dropped))
    {
      status := Conclude(answer);
      if answer.Throw? {
        CloseBooks(if answer.thrown.aborted then "cancelled" else "kernel_error", honest);
        if !answer.thrown.aborted {
          RecordError(answer.thrown.message, honest);
        }
      } else if answer == Continue {
        CloseBooks("max_iterations", honest);
      }
    }

    /** The loop and the ways out after it. */
    method RunToTheEnd(turns: nat -> Turn) returns (status: FinalStatus, ghost lived: nat -> Turn, ghost c: Course)
      requires Valid() && Sound(TheBooks()) && guard.pendingCalls == []
      requires toolCalls == [] && silent == [] && superseded == [] && effects == [] && currentIteration == 0
      modifies this, guard
      ensures Valid() && guard.pendingCalls == [] && old(itemHistory) <= itemHistory
      ensures Lived(input, turns, lived, c.iterations) && c == CourseAfter(Plans(input, lived), input.Limit())
      ensures c.spoiled == [] || !input.steadySerialiser ==> c == CourseAfter(Plans(input, turns), input.Limit())
      ensures status == Conclude(c.exit) && Stands(c) && c.iterations <= input.Limit()
      ensures HonestUpTo(turns, c.iterations) ==> Balanced(c.drops)
    {
      var answer;
      answer, lived, c := Loop(turns);
      status := CloseRun(answer, HonestUpTo(turns, c.iterations), c.drops);
      CourseAtMeans(Plans(input, lived), input.Limit(), c);
      if c.spoiled == [] || !input.steadySerialiser {
        CourseAtMeans(Plans(input, turns), input.Limit(), c);
      }
    }

    /**
     `run`. Whatever the environment answers, at every way out: nothing is waited
     for any more, every recorded call has a result in the transcript, no protected
     item was compacted away, what was handled or dispatched and how the run ended
     is the course its iterations dictate, and for each reply that follows the
     request order.

     If moreover handlers answer under the id they were asked about and no reply
     repeats an id, results and recorded calls differ by the superseded results
     alone; every message list sent to the model was block-structured, unless the
     serialiser changes its answer and the list showed a superseded result; and the
     transcript as it stands is paired exactly when no result was superseded and no
     reply's calls were dropped.

     `lived` are the turns as they came out: with a steady serialiser, rebuilding a
     message list throws where a result that failed before is serialised again.
     */
    method Run(turns: nat -> Turn) returns (status: FinalStatus, ghost lived: nat -> Turn)
      requires Valid() && Sound(TheBooks()) && guard.pendingCalls == []
      requires toolCalls == [] && silent == [] && superseded == [] && effects == [] && currentIteration == 0
      modifies this, guard
      ensures Valid() && guard.pendingCalls == [] && old(itemHistory) <= itemHistory
      ensures Lived(input, turns, lived, currentIteration)
      ensures CourseOf(input, lived).spoiled == [] || !input.steadySerialiser ==>
                CourseOf(input, lived) == CourseOf(input, turns)
      ensures status == Conclude(CourseOf(input, lived).exit) && Stands(CourseOf(input, lived))
      ensures currentIteration <= if input.maxIterations < 0 then 0 else input.maxIterations
      ensures forall e :: e in effects ==> Caused(input, lived, currentIteration, e)
      ensures forall e :: e in effects ==>
                if e.Handled? then e.request.toolName in input.internalHandlers
                else && e.request.toolName !in input.internalHandlers && !input.remote
                     && input.projectedTools.Some? && e.request.toolName in input.projectedTools.value
      ensures input.remote ==> forall e :: e in effects ==> e.Handled?
      ensures forall r :: r in toolCalls ==> r.toolCallId in ResultIds(transcript)
      ensures CalledIds(transcript) <= RecordedIds(transcript)
      ensures contextItems == NeverNamed(itemHistory, |itemHistory|)
      ensures forall k :: 0 <= k < |itemHistory| && itemHistory[k].Added?
                && (var item := itemHistory[k].item;
                    item.isPinned || !item.isCompressible
                        || (input.compactHints.Some? && item.itemId in input.compactHints.value.mustKeepItemIds))
                ==> itemHistory[k].item in contextItems
      ensures HonestUpTo(turns, currentIteration) ==> Accounted(CourseOf(input, lived))
    {
      ghost var c := CourseOf(input, turns);
      status, lived := TimedOut, turns;
      if input.timeoutMs > 0 {
        status, lived, c := RunToTheEnd(turns);
      }
      EffectsOfRun(lived);
      ClosedCovered(TheBooks());
      ItemsAtTheEnd(contextItems, itemHistory, input.MustKeep());
      if HonestUpTo(turns, currentIteration) {
        AccountsClosed(c);
      }
    }

    /** What a run executed was caused by its replies and allowed by its input. */
    lemma EffectsOfRun(lived: nat -> Turn)
      requires effects == CourseOf(input, lived).done && currentIteration == CourseOf(input, lived).iterations
      ensures forall e :: e in effects ==> Caused(input, lived, currentIteration, e)
      ensures forall e :: e in effects ==>
                if e.Handled? then e.request.toolName in input.internalHandlers
                else && e.request.toolName !in input.internalHandlers && !input.remote
                     && input.projectedTools.Some? && e.request.toolName in input.projectedTools.value
    {
      RunEffects(input, lived);
      forall e | e in effects
        ensures if e.Handled? then e.request.toolName in input.internalHandlers
                else && e.request.toolName !in input.internalHandlers && !input.remote
                     && input.projectedTools.Some? && e.request.toolName in input.projectedTools.value
      {
        CausedIsAllowed(input, lived, currentIteration, e);
      }
    }

    /**
     The accounts of a run with an honest environment that took the course `c`.
     Where a property can fail, it fails exactly in the named case.
     */
    ghost predicate Accounted(c: Course)
      reads this
    {
      && multiset(ResultIds(transcript)) == multiset(Ids(toolCalls)) + multiset(c.spoiled)
      && (multiset(ResultIds(transcript)) == multiset(Ids(toolCalls)) <==> c.spoiled == [])
      && RequestsExact(transcript)
      && (c.spoiled == [] || input.steadySerialiser ==>
            forall k :: 0 <= k < |transcript| && transcript[k].LlmRequest? ==> BlockStructured(transcript[k].messages))
      && (ScanRaw(transcript) == Outstanding(multiset{}) <==> c.spoiled == [] && !c.drops)
      && (!c.cut ==> CalledIds(transcript) == RecordedIds(transcript))
      && (Distinct(Ids(toolCalls)) ==>
            && (CalledIds(transcript) == RecordedIds(transcript) <==> !c.cut)
            && forall r :: r in toolCalls ==>
                multiset(ResultIds(transcript))[r.toolCallId] == 1 + multiset(c.spoiled)[r.toolCallId])
    }

    lemma AccountsClosed(c: Course)
      requires Valid() && guard.pendingCalls == [] && Stands(c) && Balanced(c.drops)
      ensures Accounted(c)
    {
      assert Open(0);
      var b := TheBooks();
      ClosedConserved(b);
      ClosedValidIff(b);
      ClosedPairedIff(b);
      assert Ids(b.pending) == [];
      forall k | (c.spoiled == [] || input.steadySerialiser) && 0 <= k < |transcript| && transcript[k].LlmRequest?
        ensures BlockStructured(transcript[k].messages)
      {
        if input.steadySerialiser {
          ShownIsStructured(transcript, k);
        } else {
          CleanRequests(transcript, k);
        }
      }
      forall r | Distinct(Ids(toolCalls)) && r in toolCalls
        ensures multiset(ResultIds(transcript))[r.toolCallId] == 1 + multiset(c.spoiled)[r.toolCallId]
      {
        ExactlyOneResult(b, r);
      }
    }
  }

  lemma PrefixTwice<T>(a: seq<T>, b: seq<T>, c: seq<T>)
    requires a <= b <= c
    ensures a <= c
  {
  }

  lemma Extend<T>(base: seq<T>, some: seq<T>, more: seq<T>)
    ensures (base + some) + more == base + (some + more)
  {
  }
}
