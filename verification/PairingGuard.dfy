/**
 Tool calls, their results, and the guard that remembers which calls of the
 current reply still lack a result (src/kernel/tool-result-pairing-guard.ts).

 The guard's `pendingCalls` is an insertion-ordered map from call id to
 request; it is held here as the sequence of its entries in that order.
 */
module PairingGuard {
  import opened Common

  type Json = string

  datatype ToolRequest = ToolRequest(toolCallId: string, toolName: string, params: Json)

  /** The kernel's own error codes, and those reported by tools and dispatches. */
  datatype ErrorCode =
    | TRUNCATED_TOOL_CALL | INVALID_TOOL_ARGUMENTS | UNPROJECTED_TOOL_CALL | INTERNAL_HANDLER_ERROR
    | DISPATCH_ERROR | DISPATCH_FAILED | MISSING_TOOL_RESULT | Reported(code: string)

  datatype ToolError = ToolError(code: ErrorCode, message: string, recoverable: bool)

  datatype ToolResult = ToolResult(toolCallId: string, payload: Json, error: Option<ToolError>, terminate: bool)

  /** The call ids of a list of requests, in order. */
  function Ids(requests: seq<ToolRequest>): (ids: seq<string>)
    ensures |ids| == |requests|
  {
    seq(|requests|, i requires 0 <= i < |requests| => requests[i].toolCallId)
  }

  function ResultKeys(results: seq<ToolResult>): (ids: seq<string>)
    ensures |ids| == |results|
  {
    seq(|results|, i requires 0 <= i < |results| => results[i].toolCallId)
  }

  /** `Map.set`: a known key keeps its place, a new key goes last. */
  function Put(pending: seq<ToolRequest>, request: ToolRequest): seq<ToolRequest> {
    if pending == [] then [request]
    else if pending[0].toolCallId == request.toolCallId then [request] + pending[1..]
    else [pending[0]] + Put(pending[1..], request)
  }

  function PutAll(pending: seq<ToolRequest>, requests: seq<ToolRequest>): seq<ToolRequest>
    decreases |requests|
  {
    if requests == [] then pending else PutAll(Put(pending, requests[0]), requests[1..])
  }

  /** `Map.delete`. */
  function Drop(pending: seq<ToolRequest>, id: string): seq<ToolRequest> {
    if pending == [] then []
    else if pending[0].toolCallId == id then Drop(pending[1..], id)
    else [pending[0]] + Drop(pending[1..], id)
  }

  /** The placeholder result the guard produces for a call nobody answered. */
  function Missing(request: ToolRequest, reason: string): ToolResult {
    ToolResult(request.toolCallId, "null",
               Some(ToolError(MISSING_TOOL_RESULT,
                              "Tool call " + request.toolName + " (" + request.toolCallId + ") had no matching result ("
                                  + reason + ")",
                              true)),
               false)
  }

  function MissingAll(pending: seq<ToolRequest>, reason: string): (results: seq<ToolResult>)
    ensures |results| == |pending|
    ensures ResultKeys(results) == Ids(pending)
  {
    seq(|pending|, i requires 0 <= i < |pending| => Missing(pending[i], reason))
  }

  class ToolResultPairingGuard {
    var pendingCalls: seq<ToolRequest>
    var completedResults: map<string, ToolResult>

    constructor ()
      ensures pendingCalls == [] && completedResults == map[]
    {
      pendingCalls, completedResults := [], map[];
    }

    method TrackAssistantToolCalls(requests: seq<ToolRequest>)
      modifies this`pendingCalls
      ensures pendingCalls == PutAll(old(pendingCalls), requests)
    {
      for i := 0 to |requests|
        invariant PutAll(pendingCalls, requests[i..]) == PutAll(old(pendingCalls), requests)
      {
        assert requests[i..][1..] == requests[i + 1..];
        pendingCalls := Put(pendingCalls, requests[i]);
      }
    }

    method AcceptToolResult(result: ToolResult)
      modifies this
      ensures pendingCalls == Drop(old(pendingCalls), result.toolCallId)
      ensures completedResults == old(completedResults)[result.toolCallId := result]
    {
      completedResults := completedResults[result.toolCallId := result];
      pendingCalls := Drop(pendingCalls, result.toolCallId);
    }

    method FlushMissingResults(reason: string) returns (missing: seq<ToolResult>)
      modifies this`pendingCalls
      ensures pendingCalls == []
      ensures missing == MissingAll(old(pendingCalls), reason)
    {
      missing := [];
      for i := 0 to |pendingCalls|
        invariant missing == MissingAll(pendingCalls[..i], reason)
        invariant pendingCalls == old(pendingCalls)
      {
        missing := missing + [Missing(pendingCalls[i], reason)];
      }
      pendingCalls := [];
    }
  }

  lemma IdsConcat(a: seq<ToolRequest>, b: seq<ToolRequest>)
    ensures Ids(a + b) == Ids(a) + Ids(b)
  {
  }

  lemma {:induction false} PutNew(pending: seq<ToolRequest>, request: ToolRequest)
    requires request.toolCallId !in Ids(pending)
    ensures Put(pending, request) == pending + [request]
  {
    if pending != [] {
      assert Ids(pending)[0] == pending[0].toolCallId;
      assert forall i :: 0 <= i < |pending[1..]| ==> Ids(pending[1..])[i] == Ids(pending)[i + 1];
      PutNew(pending[1..], request);
    }
  }

  /** A call whose id is waited for already takes the place of the earlier one. */
  lemma {:induction false} PutKnown(before: seq<ToolRequest>, was: ToolRequest, after: seq<ToolRequest>,
                                    request: ToolRequest)
    requires was.toolCallId == request.toolCallId && request.toolCallId !in Ids(before)
    ensures Put(before + [was] + after, request) == before + [request] + after
  {
    var all := before + [was] + after;
    if before == [] {
      assert all[1..] == after && all[0] == was;
      assert [] + [request] + after == [request] + after;
    } else {
      assert Ids(before)[0] == before[0].toolCallId;
      assert forall i :: 0 <= i < |before[1..]| ==> Ids(before[1..])[i] == Ids(before)[i + 1];
      assert all[1..] == before[1..] + [was] + after;
      PutKnown(before[1..], was, after, request);
      assert [before[0]] + (before[1..] + [request] + after) == before + [request] + after;
    }
  }

  /** Tracking calls with fresh, distinct ids appends them in request order. */
  lemma {:induction false} PutAllFresh(pending: seq<ToolRequest>, requests: seq<ToolRequest>)
    requires Distinct(Ids(pending + requests))
    ensures PutAll(pending, requests) == pending + requests
    decreases |requests|
  {
    if requests != [] {
      var all := pending + requests;
      assert Ids(all)[|pending|] == requests[0].toolCallId;
      assert forall i :: 0 <= i < |pending| ==> Ids(all)[i] == Ids(pending)[i];
      PutNew(pending, requests[0]);
      assert pending + [requests[0]] + requests[1..] == all;
      PutAllFresh(pending + [requests[0]], requests[1..]);
    } else {
      assert pending + requests == pending;
    }
  }

  lemma IdsCons(requests: seq<ToolRequest>)
    requires requests != []
    ensures Ids(requests) == [requests[0].toolCallId] + Ids(requests[1..])
  {
  }

  lemma {:induction false} PutCovers(pending: seq<ToolRequest>, request: ToolRequest)
    ensures forall x :: x in Ids(Put(pending, request)) <==> x in Ids(pending) || x == request.toolCallId
  {
    IdsCons(Put(pending, request));
    if pending != [] {
      IdsCons(pending);
      if pending[0].toolCallId != request.toolCallId {
        PutCovers(pending[1..], request);
        assert Put(pending, request)[1..] == Put(pending[1..], request);
      } else {
        assert Put(pending, request)[1..] == pending[1..];
      }
    }
  }

  /** Tracking never forgets a call, whatever ids the model chose. */
  lemma {:induction false} PutAllCovers(pending: seq<ToolRequest>, requests: seq<ToolRequest>)
    ensures forall x :: x in Ids(PutAll(pending, requests)) <==> x in Ids(pending) || x in Ids(requests)
    decreases |requests|
  {
    if requests != [] {
      PutCovers(pending, requests[0]);
      PutAllCovers(Put(pending, requests[0]), requests[1..]);
      IdsCons(requests);
    }
  }

  lemma {:induction false} DropCovers(pending: seq<ToolRequest>, id: string)
    ensures forall x :: x in Ids(Drop(pending, id)) <==> x in Ids(pending) && x != id
  {
    if pending != [] {
      DropCovers(pending[1..], id);
      IdsCons(pending);
      if pending[0].toolCallId != id {
        IdsCons(Drop(pending, id));
        assert Drop(pending, id)[1..] == Drop(pending[1..], id);
      }
    }
  }

  lemma {:induction false} DropConcat(a: seq<ToolRequest>, b: seq<ToolRequest>, id: string)
    ensures Drop(a + b, id) == Drop(a, id) + Drop(b, id)
  {
    if a == [] {
      assert a + b == b;
    } else {
      assert (a + b)[1..] == a[1..] + b;
      DropConcat(a[1..], b, id);
    }
  }

  lemma {:induction false} DropAbsent(pending: seq<ToolRequest>, id: string)
    requires id !in Ids(pending)
    ensures Drop(pending, id) == pending
  {
    if pending != [] {
      IdsCons(pending);
      DropAbsent(pending[1..], id);
    }
  }

  /** Taking the middle out of a distinct list leaves a distinct list without it. */
  lemma DistinctMiddle(a: seq<string>, x: string, b: seq<string>)
    requires Distinct(a + [x] + b)
    ensures x !in a && x !in b && Distinct(a + b)
  {
    var all, rest := a + [x] + b, a + b;
    assert all[|a|] == x;
    forall i | 0 <= i < |a| ensures a[i] != x { assert all[i] == a[i]; }
    forall i | 0 <= i < |b| ensures b[i] != x { assert all[|a| + 1 + i] == b[i]; }
    forall i, j | 0 <= i < j < |rest| ensures rest[i] != rest[j] {
      var i', j' := if i < |a| then i else i + 1, if j < |a| then j else j + 1;
      assert rest[i] == all[i'] && rest[j] == all[j'];
    }
  }

  lemma IdsMiddle(before: seq<ToolRequest>, request: ToolRequest, after: seq<ToolRequest>)
    ensures Ids(before + [request] + after) == Ids(before) + [request.toolCallId] + Ids(after)
  {
  }

  /** Answering one call of a distinct list removes that call and nothing else. */
  lemma DropOne(before: seq<ToolRequest>, request: ToolRequest, after: seq<ToolRequest>)
    requires Distinct(Ids(before + [request] + after))
    ensures Drop(before + [request] + after, request.toolCallId) == before + after
    ensures Distinct(Ids(before + after))
    ensures multiset(Ids(before + [request] + after)) == multiset(Ids(before + after)) + multiset{request.toolCallId}
  {
    var id := request.toolCallId;
    IdsMiddle(before, request, after);
    IdsConcat(before, after);
    DistinctMiddle(Ids(before), id, Ids(after));
    DropConcat(before + [request], after, id);
    DropConcat(before, [request], id);
    DropAbsent(before, id);
    DropAbsent(after, id);
    assert Drop([request], id) == [];
  }
}
