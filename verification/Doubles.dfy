/**
 What a superseded result does (src/kernel/agent-kernel.ts:326-365). The `try`
 around an internal handler also covers the recording of its answer: if merging
 it throws, an error result for the same call is committed after it.
 */
module Doubles {
  import opened Common
  import opened PairingGuard
  import opened Transcript

  /** A superseded result at `p` answered an open call, and an error result for that call follows directly. */
  ghost predicate DoubleAt(t: seq<Entry>, p: nat)
    requires p < |t|
  {
    IsSuperseded(t[p]) ==>
    var id := t[p].result.toolCallId;
    && p + 1 < |t| && t[p + 1].ToolResultEntry? && !IsSuperseded(t[p + 1]) && t[p + 1].result.toolCallId == id
    && ScanTranscript(t[..p]).Outstanding? && ScanTranscript(t[..p]).ids[id] == 1
  }

  ghost predicate DoublesOk(t: seq<Entry>) {
    forall p {:trigger DoubleAt(t, p)} :: 0 <= p < |t| ==> DoubleAt(t, p)
  }

  lemma DoublesExtend(t: seq<Entry>, more: seq<Entry>)
    requires DoublesOk(t) && forall i :: 0 <= i < |more| ==> !IsSuperseded(more[i])
    ensures DoublesOk(t + more)
  {
    forall p | 0 <= p < |t + more|
      ensures DoubleAt(t + more, p)
    {
      if p < |t| {
        assert DoubleAt(t, p) && (t + more)[..p] == t[..p];
      }
    }
  }

  /** A superseded result and the error result after it. */
  lemma DoublesRedo(t: seq<Entry>, first: ToolResult, failure: Thrown, second: ToolResult)
    requires DoublesOk(t) && first.toolCallId == second.toolCallId
    requires ScanTranscript(t).Outstanding? && ScanTranscript(t).ids[first.toolCallId] == 1
    ensures DoublesOk(t + [ToolResultEntry(first, Some(failure)), ToolResultEntry(second)])
  {
    var t' := t + [ToolResultEntry(first, Some(failure)), ToolResultEntry(second)];
    forall p | 0 <= p < |t'|
      ensures DoubleAt(t', p)
    {
      if p < |t| {
        assert DoubleAt(t, p) && t'[..p] == t[..p];
      } else {
        assert t'[..|t|] == t;
      }
    }
  }

  // ------------------------------------------------------------- the literal transcript

  lemma {:induction false} RawSame(t: seq<Entry>)
    requires SupersededIds(t) == []
    ensures ScanRaw(t) == ScanTranscript(t)
  {
    if t != [] {
      RawSame(t[..|t| - 1]);
    }
  }

  lemma {:induction false} FirstSuperseded(t: seq<Entry>) returns (p: nat)
    requires SupersededIds(t) != []
    ensures p < |t| && IsSuperseded(t[p]) && SupersededIds(t[..p]) == []
  {
    var init := t[..|t| - 1];
    if SupersededIds(init) != [] {
      p := FirstSuperseded(init);
      assert t[..p] == init[..p];
    } else {
      p := |init|;
    }
  }

  lemma RawNext(t: seq<Entry>, n: nat)
    requires n < |t|
    ensures ScanRaw(t[..n + 1]) == if t[n].ToolResultEntry? then Settle(ScanRaw(t[..n]), t[n].result.toolCallId)
              else ScanEntry(ScanRaw(t[..n]), t[n])
  {
    assert t[..n + 1][..n] == t[..n];
  }

  lemma {:induction false} RawStrayStays(t: seq<Entry>, n: nat)
    requires n <= |t| && ScanRaw(t[..n]) == Stray
    ensures ScanRaw(t) == Stray
    decreases |t| - n
  {
    if n < |t| {
      RawNext(t, n);
      RawStrayStays(t, n + 1);
    } else {
      assert t[..n] == t;
    }
  }

  /** Settling an id twice that is open once goes astray. */
  lemma TwiceIsStray(open: multiset<string>, id: string)
    requires open[id] == 1
    ensures Settle(Settle(Outstanding(open), id), id) == Stray
  {
  }

  /**
   The literal transcript pairs like the effective one, unless a result was superseded:
   then it does not pair at all.
   */
  lemma RawIff(t: seq<Entry>)
    requires DoublesOk(t)
    ensures SupersededIds(t) == [] ==> ScanRaw(t) == ScanTranscript(t)
    ensures SupersededIds(t) != [] ==> ScanRaw(t) == Stray
  {
    if SupersededIds(t) == [] {
      RawSame(t);
    } else {
      var p := FirstSuperseded(t);
      assert DoubleAt(t, p);
      RawSame(t[..p]);
      RawNext(t, p);
      RawNext(t, p + 1);
      TwiceIsStray(ScanTranscript(t[..p]).ids, t[p].result.toolCallId);
      RawStrayStays(t, p + 2);
    }
  }

  // ------------------------------------------------------------------ rebuilt messages

  ghost predicate Shows(messages: seq<Message>, id: string) {
    exists m :: m in messages && m.ToolMessage? && m.toolCallId == id
  }

  /** Some superseded result of the transcript is visible among the messages. */
  ghost predicate ShowsDouble(t: seq<Entry>, messages: seq<Message>) {
    exists id :: id in SupersededIds(t) && Shows(messages, id)
  }

  lemma {:induction false} SupersededAreResults(t: seq<Entry>, id: string)
    requires id in SupersededIds(t)
    ensures id in ResultIds(t)
  {
    if id in SupersededIds(t[..|t| - 1]) {
      SupersededAreResults(t[..|t| - 1], id);
    }
  }

  /** The tool messages show the results whose ids are not compacted. */
  lemma {:induction false} ShownIsNotCompacted(t: seq<Entry>, answered: set<string>, compacted: set<string>,
                                               toolLoopV2: bool, id: string)
    ensures Shows(Replay(t, answered, compacted, toolLoopV2), id) <==> id in ResultIds(t) && id !in compacted
  {
    if t != [] {
      var init, last := t[..|t| - 1], t[|t| - 1];
      ShownIsNotCompacted(init, answered, compacted, toolLoopV2, id);
      var before, added := Replay(init, answered, compacted, toolLoopV2),
          ReplayEntry(last, answered, compacted, toolLoopV2);
      assert Shows(before + added, id) <==> Shows(before, id) || Shows(added, id) by {
        assert forall m :: m in before + added <==> m in before || m in added;
      }
      if last.ToolResultEntry? && last.result.toolCallId !in compacted {
        assert added[0] in added;
      }
    }
  }

  lemma {:induction false} FirstVisible(t: seq<Entry>, compacted: set<string>) returns (p: nat)
    requires !AllHidden(t, compacted)
    ensures p < |t| && IsSuperseded(t[p]) && t[p].result.toolCallId !in compacted && AllHidden(t[..p], compacted)
  {
    var init := t[..|t| - 1];
    if !AllHidden(init, compacted) {
      p := FirstVisible(init, compacted);
      assert t[..p] == init[..p];
    } else {
      p := |init|;
    }
  }

  lemma ReplayNext(t: seq<Entry>, n: nat, answered: set<string>, compacted: set<string>, toolLoopV2: bool)
    requires n < |t|
    ensures Replay(t[..n + 1], answered, compacted, toolLoopV2)
         == Replay(t[..n], answered, compacted, toolLoopV2) + ReplayEntry(t[n], answered, compacted, toolLoopV2)
  {
    assert t[..n + 1][..n] == t[..n];
  }

  lemma StrayPlusEntry(before: seq<Message>, e: Entry, answered: set<string>, compacted: set<string>, toolLoopV2: bool)
    requires ScanMessages(before) == Stray
    ensures ScanMessages(before + ReplayEntry(e, answered, compacted, toolLoopV2)) == Stray
  {
    var added := ReplayEntry(e, answered, compacted, toolLoopV2);
    if added == [] {
      assert before + added == before;
    } else {
      assert added == [added[0]];
      ScanMessagesAppend(before, added[0]);
    }
  }

  lemma {:induction false} ReplayStrayStays(t: seq<Entry>, n: nat, answered: set<string>, compacted: set<string>,
                                            toolLoopV2: bool)
    requires n <= |t| && ScanMessages(Replay(t[..n], answered, compacted, toolLoopV2)) == Stray
    ensures ScanMessages(Replay(t, answered, compacted, toolLoopV2)) == Stray
    decreases |t| - n
  {
    if n < |t| {
      ReplayNext(t, n, answered, compacted, toolLoopV2);
      StrayPlusEntry(Replay(t[..n], answered, compacted, toolLoopV2), t[n], answered, compacted, toolLoopV2);
      ReplayStrayStays(t, n + 1, answered, compacted, toolLoopV2);
    } else {
      assert t[..n] == t;
    }
  }

  /** One visible result more. */
  lemma ReplayVisible(t: seq<Entry>, n: nat, answered: set<string>, compacted: set<string>, toolLoopV2: bool)
    requires n < |t| && t[n].ToolResultEntry? && t[n].result.toolCallId !in compacted
    ensures ScanMessages(Replay(t[..n + 1], answered, compacted, toolLoopV2))
         == Settle(ScanMessages(Replay(t[..n], answered, compacted, toolLoopV2)), t[n].result.toolCallId)
  {
    ReplayNext(t, n, answered, compacted, toolLoopV2);
    ScanMessagesAppend(Replay(t[..n], answered, compacted, toolLoopV2),
                       ToolMessage(t[n].result.toolCallId, ToolText(t[n].result)));
  }

  /** A visible superseded result shows its call answered twice. */
  lemma VisibleDoubleStrays(t: seq<Entry>, answered: set<string>, compacted: set<string>, toolLoopV2: bool)
    requires AllAnswered(t, answered) && DoublesOk(t) && !AllHidden(t, compacted)
    ensures ScanMessages(Replay(t, answered, compacted, toolLoopV2)) == Stray
  {
    var p := FirstVisible(t, compacted);
    assert DoubleAt(t, p);
    assert AllAnswered(t[..p], answered) by {
      assert forall i :: 0 <= i < p ==> t[..p][i] == t[i];
    }
    ReplayScan(t[..p], answered, compacted, toolLoopV2);
    ReplayVisible(t, p, answered, compacted, toolLoopV2);
    ReplayVisible(t, p + 1, answered, compacted, toolLoopV2);
    TwiceIsStray(ScanMessages(Replay(t[..p], answered, compacted, toolLoopV2)).ids, t[p].result.toolCallId);
    ReplayStrayStays(t, p + 2, answered, compacted, toolLoopV2);
  }

  /**
   A list rebuilt from a transcript with every call answered is block-structured unless
   it shows a superseded result.
   */
  lemma RebuiltExactly(t: seq<Entry>, compacted: set<string>, toolLoopV2: bool)
    requires ScanTranscript(t) == Outstanding(multiset{}) && DoublesOk(t)
    ensures var messages := Replay(t, Answered(t), compacted, toolLoopV2);
            && (BlockStructured(messages) <==> !ShowsDouble(t, messages))
            && (ShowsDouble(t, messages) <==> !AllHidden(t, compacted))
  {
    var messages := Replay(t, Answered(t), compacted, toolLoopV2);
    forall id | id in SupersededIds(t)
      ensures Shows(messages, id) <==> id !in compacted
    {
      SupersededAreResults(t, id);
      ShownIsNotCompacted(t, Answered(t), compacted, toolLoopV2, id);
    }
    if AllHidden(t, compacted) {
      ReplayIsBlockStructured(t, compacted, toolLoopV2);
    } else {
      ClosedIsAnswered(t);
      VisibleDoubleStrays(t, Answered(t), compacted, toolLoopV2);
      AcceptedIffBlockStructured(messages);
    }
  }

  /** Every message list sent to the model was block-structured, unless it showed a superseded result. */
  ghost predicate RequestsExact(t: seq<Entry>) {
    forall k {:trigger RequestAt(t, k)} :: 0 <= k < |t| ==> RequestAt(t, k)
  }

  /** A request at `k` carries a block-structured list exactly when that shows no result superseded by then. */
  ghost predicate RequestAt(t: seq<Entry>, k: nat)
    requires k < |t|
  {
    t[k].LlmRequest? ==> (BlockStructured(t[k].messages) <==> !ShowsDouble(t[..k], t[k].messages))
  }

  lemma RequestsExtend(t: seq<Entry>, more: seq<Entry>)
    requires RequestsExact(t) && forall i :: 0 <= i < |more| ==> !more[i].LlmRequest?
    ensures RequestsExact(t + more)
  {
    forall k | 0 <= k < |t + more|
      ensures RequestAt(t + more, k)
    {
      if k < |t| {
        assert RequestAt(t, k) && (t + more)[..k] == t[..k];
      }
    }
  }

  lemma RequestsRecord(t: seq<Entry>, messages: seq<Message>)
    requires RequestsExact(t) && (BlockStructured(messages) <==> !ShowsDouble(t, messages))
    ensures RequestsExact(t + [LlmRequest(messages)])
  {
    var t' := t + [LlmRequest(messages)];
    forall k | 0 <= k < |t'|
      ensures RequestAt(t', k)
    {
      if k < |t| {
        assert RequestAt(t, k) && t'[..k] == t[..k];
      } else {
        assert t'[..|t|] == t;
      }
    }
  }

  /** No message list sent to the model showed a superseded result. */
  ghost predicate NoneShown(t: seq<Entry>) {
    forall k {:trigger NoneShownAt(t, k)} :: 0 <= k < |t| ==> NoneShownAt(t, k)
  }

  ghost predicate NoneShownAt(t: seq<Entry>, k: nat)
    requires k < |t|
  {
    t[k].LlmRequest? ==> !ShowsDouble(t[..k], t[k].messages)
  }

  lemma NoneShownExtend(t: seq<Entry>, more: seq<Entry>)
    requires NoneShown(t) && forall i :: 0 <= i < |more| ==> !more[i].LlmRequest?
    ensures NoneShown(t + more)
  {
    forall k | 0 <= k < |t + more|
      ensures NoneShownAt(t + more, k)
    {
      if k < |t| {
        assert NoneShownAt(t, k) && (t + more)[..k] == t[..k];
      }
    }
  }

  lemma NoneShownRecord(t: seq<Entry>, messages: seq<Message>)
    requires NoneShown(t) && !ShowsDouble(t, messages)
    ensures NoneShown(t + [LlmRequest(messages)])
  {
    var t' := t + [LlmRequest(messages)];
    forall k | 0 <= k < |t'|
      ensures NoneShownAt(t', k)
    {
      if k < |t| {
        assert NoneShownAt(t, k) && t'[..k] == t[..k];
      } else {
        assert t'[..|t|] == t;
      }
    }
  }

  /** What is compacted is not shown. */
  lemma HiddenIsNotShown(t: seq<Entry>, answered: set<string>, compacted: set<string>, toolLoopV2: bool)
    requires AllHidden(t, compacted)
    ensures !ShowsDouble(t, Replay(t, answered, compacted, toolLoopV2))
  {
    forall id | id in SupersededIds(t)
      ensures !Shows(Replay(t, answered, compacted, toolLoopV2), id)
    {
      ShownIsNotCompacted(t, answered, compacted, toolLoopV2, id);
    }
  }

  /** Where no superseded result is shown, every message list was block-structured. */
  lemma ShownIsStructured(t: seq<Entry>, k: nat)
    requires RequestsExact(t) && NoneShown(t) && k < |t| && t[k].LlmRequest?
    ensures BlockStructured(t[k].messages)
  {
    assert RequestAt(t, k) && NoneShownAt(t, k);
  }

  /** Without superseded results every message list was block-structured. */
  lemma CleanRequests(t: seq<Entry>, k: nat)
    requires RequestsExact(t) && SupersededIds(t) == [] && k < |t| && t[k].LlmRequest?
    ensures BlockStructured(t[k].messages)
  {
    SupersededPrefix(t, k);
    assert RequestAt(t, k);
  }

  lemma {:induction false} SupersededPrefix(t: seq<Entry>, k: nat)
    requires k <= |t| && SupersededIds(t) == []
    ensures SupersededIds(t[..k]) == []
    decreases |t|
  {
    if k < |t| {
      SupersededPrefix(t[..|t| - 1], k);
      assert t[..|t| - 1][..k] == t[..k];
    } else {
      assert t[..k] == t;
    }
  }
}
