/**
 Concrete runs of the kernel in which a property of the transcript fails: each
 lies in the one case that the accounts of a run name.
 */
module KernelExamples {
  import opened Common
  import opened PairingGuard
  import opened Transcript
  import opened Doubles
  import opened Compaction
  import opened Ledger
  import opened KernelSpec
  import AgentKernel

  /** One iteration, one internal handler, no compaction; serialising a value again may have another outcome. */
  const Input := RunInput(false, None, {"h"}, false, 1, 1000, [], [], 1, 1.0, None, false, false, (i: nat) => "item")

  /** The same, except that serialising a value again has the same outcome. */
  const SteadyInput := Input.(steadySerialiser := true)

  function CallsOf(ids: seq<string>): seq<ToolCall> {
    seq(|ids|, i requires 0 <= i < |ids| => ToolCall(ids[i], "h", Parsed("{}")))
  }

  function ReplyWith(ids: seq<string>): Reply {
    Reply("", "", CallsOf(ids), false)
  }

  /** The handler answers every call under its id; perhaps it asks to stop, perhaps its answer cannot be serialised. */
  function TurnWith(ids: seq<string>, abortedAfterReply: bool, stop: bool, recording: Option<Thrown>): Turn {
    Turn(false, false, None, false, false, StreamEmpty, CompleteReply(ReplyWith(ids)), abortedAfterReply,
         (i: nat) => KernelSpec.Answered(ToolResult(if i < |ids| then ids[i] else "", "1", None, false), stop,
                                         recording),
         (i: nat) => false, (i: nat) => DispatchThrew(""), Skipped, true)
  }

  lemma TurnIsHonest(ids: seq<string>, abortedAfterReply: bool, stop: bool, recording: Option<Thrown>)
    requires Distinct(ids)
    ensures HonestTurn(TurnWith(ids, abortedAfterReply, stop, recording))
  {
    assert CallIds(CallsOf(ids)) == ids;
  }

  /** No call of the reply has unparseable arguments. */
  lemma {:induction false} NothingInvalid(calls: seq<ToolCall>)
    requires forall i :: 0 <= i < |calls| ==> calls[i].args.Parsed?
    ensures InvalidArgs(calls) == map[]
  {
    if calls != [] {
      NothingInvalid(calls[..|calls| - 1]);
    }
  }

  /** The first call of such a turn is handled at once. */
  lemma FirstCall(input: RunInput, ids: seq<string>, stop: bool, recording: Option<Thrown>)
    requires ids != [] && "h" in input.internalHandlers
    ensures var reply, turn := ReplyWith(ids), TurnWith(ids, false, stop, recording);
            var s := LoopAfter(input, Requests(reply), InvalidArgs(reply.toolCalls), turn, 1);
            && s.exit == (if stop && recording.None? then Return(Completed) else Continue)
            && s.spoiled == (if recording.Some? then [ids[0]] else []) && s.buffer == []
  {
    var reply, turn := ReplyWith(ids), TurnWith(ids, false, stop, recording);
    var requests, invalid := Requests(reply), InvalidArgs(reply.toolCalls);
    NothingInvalid(reply.toolCalls);
    assert requests[0] == ToolRequest(ids[0], "h", "{}");
    assert Admit(input, requests[0], invalid) == [Handled(requests[0])];
    assert BatchThrows(turn.dispatches(0), []).None?;
    assert LoopAfter(input, requests, invalid, turn, 0) == LoopStart;
  }

  /** A turn with one call whose answer cannot be serialised. */
  lemma UnrecordableTurn(input: RunInput)
    requires "h" in input.internalHandlers
    ensures var reply, turn := ReplyWith(["a"]), TurnWith(["a"], false, false, Some(Thrown(false, "")));
            && HonestTurn(turn) && TakenUp(turn) == Some(reply) && CallsOutcome(input, reply, turn).spoiled == ["a"]
  {
    TurnIsHonest(["a"], false, false, Some(Thrown(false, "")));
    FirstCall(input, ["a"], false, Some(Thrown(false, "")));
  }

  /** The course of a run of one such turn. */
  lemma CourseOfTurn(turn: Turn)
    ensures CourseOf(Input, (i: nat) => turn) == CourseNext(CourseStart, PlanOf(Input, turn))
  {
    var plans := Plans(Input, (i: nat) => turn);
    assert CourseAfter(plans, 0) == CourseStart && plans(0) == PlanOf(Input, turn);
    assert CourseAfter(plans, 1) == CourseNext(CourseStart, plans(0));
  }

  lemma TwoIds(x: string, y: string)
    requires x != y
    ensures Distinct([x, y]) && Ids(Requests(ReplyWith([x, y]))) == [x, y]
  {
    assert CallIds(CallsOf([x, y])) == [x, y];
  }

  lemma StoppedCourse()
    ensures var turn := TurnWith(["a", "b"], false, true, None);
            var c := CourseOf(Input, (i: nat) => turn);
            HonestTurn(turn) && c.cut && Distinct(Ids(c.calls))
  {
    var reply, turn := ReplyWith(["a", "b"]), TurnWith(["a", "b"], false, true, None);
    TwoIds("a", "b");
    TurnIsHonest(["a", "b"], false, true, None);
    FirstCall(Input, ["a", "b"], true, None);
    CourseOfTurn(turn);
    assert TakenUp(turn) == Some(reply) && CutShort(Input, reply, turn);
    assert [] + Requests(reply) == Requests(reply);
  }

  /** The handler of the first of two calls stops the run: the second is answered but was never announced. */
  method StoppedInMidReply() returns (valid: bool)
    ensures !valid
  {
    var turn := TurnWith(["a", "b"], false, true, None);
    var turns := (i: nat) => turn;
    var kernel := new AgentKernel.AgentKernel(Input);
    var _, _ := kernel.Run(turns);
    StoppedCourse();
    var missing, orphans;
    valid, missing, orphans := ValidateToolResultPairing(kernel.transcript);
  }

  /** The run is aborted between a reply and its calls: the reply's call is never answered. */
  method DroppedReply() returns (paired: bool)
    ensures !paired
  {
    var turn := TurnWith(["a"], true, false, None);
    var turns := (i: nat) => turn;
    var kernel := new AgentKernel.AgentKernel(Input);
    var _, _ := kernel.Run(turns);
    TurnIsHonest(["a"], true, false, None);
    CourseOfTurn(turn);
    assert GotReply(turn) == Some(ReplyWith(["a"])) && Drops(turn);
    paired := ScanRaw(kernel.transcript) == Outstanding(multiset{});
  }

  /** The handler's answer cannot be serialised: one call, two results. */
  method UnrecordableAnswer() returns (conserved: bool)
    ensures !conserved
  {
    var fault := Some(Thrown(false, ""));
    var turn := TurnWith(["a"], false, false, fault);
    var turns := (i: nat) => turn;
    var kernel := new AgentKernel.AgentKernel(Input);
    var _, _ := kernel.Run(turns);
    TurnIsHonest(["a"], false, false, fault);
    FirstCall(Input, ["a"], false, fault);
    CourseOfTurn(turn);
    conserved := multiset(ResultIds(kernel.transcript)) == multiset(Ids(kernel.toolCalls));
  }

  /**
   Where serialising the answer fails again, the next message list cannot be
   rebuilt: the run ends, and no doubled call is ever shown.
   */
  method RebuildAfterUnrecordableAnswer() returns (thrown: Option<Thrown>)
    ensures thrown.Some?
  {
    var turn := TurnWith(["a"], false, false, Some(Thrown(false, "")));
    var kernel := new AgentKernel.AgentKernel(SteadyInput);
    UnrecordableTurn(SteadyInput);
    var _, _ := kernel.RunIteration(0, turn);
    var messages;
    messages, thrown := BuildTranscriptMessages(kernel.transcript, kernel.compactedToolCallIds, false, true);
    assert kernel.superseded == [] + ["a"];
    DoubleIsVisible(kernel.TheBooks(), kernel.compactedToolCallIds, "a");
  }

  lemma DoubleIsVisible(b: Books, compacted: set<string>, id: string)
    requires Kept(b) && id in b.superseded && id !in compacted
    ensures !AllHidden(b.transcript, compacted)
  {
    assert Open(0);
  }

  /**
   Only where serialising the answer fails first and then succeeds does the next
   request show the call answered twice.
   */
  method RequestFromUnsteadySerialiser() returns (messages: seq<Message>)
    ensures !BlockStructured(messages)
  {
    var turn := TurnWith(["a"], false, false, Some(Thrown(false, "")));
    var kernel := new AgentKernel.AgentKernel(Input);
    UnrecordableTurn(Input);
    var _, _ := kernel.RunIteration(0, turn);
    ghost var before := kernel.TheBooks();
    assert kernel.superseded == [] + ["a"];
    var thrown;
    messages, thrown := BuildTranscriptMessages(kernel.transcript, kernel.compactedToolCallIds, Input.toolLoopV2,
                                                false);
    kernel.RecordRequest(messages, true);
    DoubleIsShown(before, kernel.TheBooks(), messages, kernel.compactedToolCallIds, Input.toolLoopV2, "a");
  }

  /** A request rebuilt after a superseded result that is not compacted is not block-structured. */
  lemma DoubleIsShown(before: Books, after: Books, messages: seq<Message>, compacted: set<string>, toolLoopV2: bool,
                      id: string)
    requires Kept(before) && Sound(after) && id in before.superseded && id !in compacted
    requires messages == Replay(before.transcript, Transcript.Answered(before.transcript), compacted, toolLoopV2)
    requires after.transcript == before.transcript + [LlmRequest(messages)]
    ensures !BlockStructured(messages)
  {
    assert Open(0);
    var t, n := before.transcript, |before.transcript|;
    SupersededAreResults(t, id);
    ShownIsNotCompacted(t, Transcript.Answered(t), compacted, toolLoopV2, id);
    assert RequestAt(after.transcript, n) && after.transcript[..n] == t;
  }
}
