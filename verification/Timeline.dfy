/**
 Rebuilding the console timeline of one turn (src/api/console-timeline.ts,
 `mapTurnToTimelineEvents`). Tool activity is recorded twice - as tool messages
 and as tool call summaries - and must appear once.
 */
module Timeline {
  import opened Common

  datatype Summary = Summary(toolCallId: string, toolName: string, status: string, startedAt: Option<int>,
                             turnSequence: Option<int>)

  datatype Role = AssistantRole | ThinkingRole | StatusRole | ApprovalRole | ToolRole | ErrorRole | OtherRole

  datatype Message = Message(
    role: Role, content: string, toolCallId: Option<string>, toolName: Option<string>, toolStatus: Option<string>,
    timestamp: Option<int>, turnSequence: Option<int>)

  datatype Turn = Turn(
    userMessage: string, inboundAt: Option<int>, createdAt: int, messages: seq<Message>, summaries: seq<Summary>,
    approvals: seq<string>, artifacts: seq<string>)

  datatype Kind =
    | UserMessage | AssistantMessage | ThinkingSummary | SystemStatus | ApprovalDecision | ToolCall | ToolResult
    | ErrorKind | ApprovalRequest | ArtifactCreated

  /** Event ids are built from the turn id, a tag and an index or a call id. */
  datatype EventId = Indexed(kind: Kind, index: nat) | ForCall(kind: Kind, toolCallId: string)

  datatype Event = Event(id: EventId, kind: Kind, timestamp: int, content: string, toolCallId: Option<string>,
                         status: string, turnSequence: Option<int>)

  // ------------------------------------------------------------------ association

  function ToolMessages(messages: seq<Message>): nat {
    if messages == [] then 0
    else ToolMessages(messages[..|messages| - 1]) + if messages[|messages| - 1].role == ToolRole then 1 else 0
  }

  /** `summariesById.get(id)`: the last summary with that non-empty id. */
  function ById(summaries: seq<Summary>, id: string): Option<Summary> {
    if summaries == [] || id == "" then None
    else if summaries[|summaries| - 1].toolCallId == id then Some(summaries[|summaries| - 1])
    else ById(summaries[..|summaries| - 1], id)
  }

  predicate MatchesById(turn: Turn, m: Message) {
    m.toolCallId.Some? && ById(turn.summaries, m.toolCallId.value).Some?
  }

  /** As many summaries as tool messages, so the k-th belongs to the k-th. */
  predicate ByOrdinal(turn: Turn) {
    turn.summaries != [] && |turn.summaries| == ToolMessages(turn.messages)
  }

  function Associated(turn: Turn, m: Message, ordinal: nat): Option<Summary> {
    if MatchesById(turn, m) then ById(turn.summaries, m.toolCallId.value)
    else if ByOrdinal(turn) && ordinal < |turn.summaries| then Some(turn.summaries[ordinal])
    else None
  }

  /** The call id a tool message's events carry: its own, or else its summary's; an empty id counts as none. */
  function ResolvedId(turn: Turn, m: Message, ordinal: nat): Option<string> {
    var id :=
      if m.toolCallId.Some? then m.toolCallId
      else if Associated(turn, m, ordinal).Some? then Some(Associated(turn, m, ordinal).value.toolCallId)
      else None;
    if id == Some("") then None else id
  }

  /** `toolResultOrdinal` before message `i`. */
  function OrdinalAt(turn: Turn, i: nat): nat
    requires i <= |turn.messages|
  {
    if i == 0 then 0
    else OrdinalAt(turn, i - 1) + if turn.messages[i - 1].role == ToolRole && !MatchesById(turn, turn.messages[i - 1])
        then 1 else 0
  }

  /** The call id message `i` resolves to, if it is a tool message. */
  function Resolves(turn: Turn, i: nat): Option<string>
    requires i < |turn.messages|
  {
    if turn.messages[i].role == ToolRole then ResolvedId(turn, turn.messages[i], OrdinalAt(turn, i)) else None
  }

  // ----------------------------------------------------------------------- events

  predicate Legacy(turn: Turn) {
    ToolMessages(turn.messages) == 0 && turn.summaries != []
  }

  function Shown(status: string): string {
    if status == "pending" then "completed" else status
  }

  function OrphanPair(turn: Turn, s: Summary, index: nat): seq<Event> {
    var at, order := s.startedAt.GetOr(turn.createdAt), Some(s.turnSequence.GetOr(index));
    [Event(ForCall(ToolCall, s.toolCallId), ToolCall, at, s.toolName + ": " + s.status, Some(s.toolCallId), s.status,
           order),
     Event(ForCall(ToolResult, s.toolCallId), ToolResult, at, s.toolName, Some(s.toolCallId), Shown(s.status), order)]
  }

  function KindOf(role: Role): Kind {
    match role
    case AssistantRole => AssistantMessage
    case ThinkingRole => ThinkingSummary
    case StatusRole => SystemStatus
    case ApprovalRole => ApprovalDecision
    case ToolRole => ToolResult
    case _ => ErrorKind
  }

  function SequenceOf(turn: Turn, i: nat): Option<int>
    requires i < |turn.messages|
  {
    if Legacy(turn) then Some(|turn.summaries| + i) else Some(turn.messages[i].turnSequence.GetOr(i))
  }

  function ToolPair(turn: Turn, i: nat, ordinal: nat): seq<Event>
    requires i < |turn.messages|
  {
    var m := turn.messages[i];
    var summary, id := Associated(turn, m, ordinal), ResolvedId(turn, m, ordinal);
    var at, order := m.timestamp.GetOr(turn.createdAt), SequenceOf(turn, i);
    var status := m.toolStatus.GetOr(if summary.Some? then Shown(summary.value.status) else "completed");
    var callStatus := if summary.Some? then summary.value.status else status;
    var callAt := if summary.Some? then summary.value.startedAt.GetOr(at) else at;
    (if id.Some? then [Event(ForCall(ToolCall, id.value), ToolCall, callAt, callStatus, id, callStatus, order)] else [])
    + [Event(if id.Some? then ForCall(ToolResult, id.value) else Indexed(ToolResult, i), ToolResult, at, m.content, id,
             status, order)]
  }

  function MessageEvents(turn: Turn, i: nat, ordinal: nat): seq<Event>
    requires i < |turn.messages|
  {
    var m := turn.messages[i];
    if m.role == ToolRole then ToolPair(turn, i, ordinal)
    else if m.role == OtherRole then []
    else [Event(Indexed(KindOf(m.role), i), KindOf(m.role), m.timestamp.GetOr(turn.createdAt), m.content, None, "",
                SequenceOf(turn, i))]
  }

  function MessagesUpTo(turn: Turn, n: nat): seq<Event>
    requires n <= |turn.messages|
  {
    if n == 0 then [] else MessagesUpTo(turn, n - 1) + MessageEvents(turn, n - 1, OrdinalAt(turn, n - 1))
  }

  /** Call ids the first `n` messages emitted. */
  function EmittedUpTo(turn: Turn, n: nat): set<string>
    requires n <= |turn.messages|
  {
    if n == 0 then {}
    else EmittedUpTo(turn, n - 1) + (if Resolves(turn, n - 1).Some? then {Resolves(turn, n - 1).value} else {})
  }

  function SummaryIds(summaries: seq<Summary>): set<string> {
    set s | s in summaries :: s.toolCallId
  }

  /** The pairs of the first `n` summaries whose id was not emitted before. */
  function OrphansUpTo(turn: Turn, emitted: set<string>, n: nat): seq<Event>
    requires n <= |turn.summaries|
  {
    if n == 0 then []
    else
      var s := turn.summaries[n - 1];
      OrphansUpTo(turn, emitted, n - 1)
      + (if s.toolCallId in emitted + SummaryIds(turn.summaries[..n - 1]) then [] else OrphanPair(turn, s, n - 1))
  }

  function Orphans(turn: Turn, emitted: set<string>): seq<Event> {
    OrphansUpTo(turn, emitted, |turn.summaries|)
  }

  function Opening(turn: Turn): seq<Event> {
    if turn.userMessage == "" then []
    else [Event(Indexed(UserMessage, 0), UserMessage, turn.inboundAt.GetOr(turn.createdAt), turn.userMessage, None, "",
                None)]
  }

  function Listed(turn: Turn, kind: Kind, contents: seq<string>): (r: seq<Event>)
    ensures |r| == |contents|
  {
    seq(|contents|, i requires 0 <= i < |contents| =>
        Event(Indexed(kind, i), kind, turn.createdAt, contents[i], None, "", None))
  }

  /** All events of a turn, in the order in which they are emitted. */
  function TurnEvents(turn: Turn): seq<Event> {
    Opening(turn)
    + (if Legacy(turn) then Orphans(turn, {}) else [])
    + MessagesUpTo(turn, |turn.messages|)
    + (if Legacy(turn) then [] else Orphans(turn, EmittedUpTo(turn, |turn.messages|)))
    + Listed(turn, ApprovalRequest, turn.approvals)
    + Listed(turn, ArtifactCreated, turn.artifacts)
  }

  method CountToolMessages(messages: seq<Message>) returns (n: nat)
    ensures n == ToolMessages(messages)
  {
    n := 0;
    for i := 0 to |messages|
      invariant n == ToolMessages(messages[..i])
    {
      assert messages[..i + 1][..i] == messages[..i];
      if messages[i].role == ToolRole { n := n + 1; }
    }
    assert messages[..|messages|] == messages;
  }

  /** Emit the pairs of the summaries not emitted yet. */
  method EmitOrphans(turn: Turn, emittedBefore: set<string>) returns (events: seq<Event>, emitted: set<string>)
    ensures events == Orphans(turn, emittedBefore) && emitted == emittedBefore + SummaryIds(turn.summaries)
  {
    events, emitted := [], emittedBefore;
    for i := 0 to |turn.summaries|
      invariant events == OrphansUpTo(turn, emittedBefore, i)
      invariant emitted == emittedBefore + SummaryIds(turn.summaries[..i])
    {
      var s := turn.summaries[i];
      assert forall x :: x in turn.summaries[..i + 1] <==> x in turn.summaries[..i] || x == s;
      assert SummaryIds(turn.summaries[..i + 1]) == SummaryIds(turn.summaries[..i]) + {s.toolCallId};
      if s.toolCallId !in emitted {
        emitted := emitted + {s.toolCallId};
        events := events + OrphanPair(turn, s, i);
      }
    }
    assert turn.summaries[..|turn.summaries|] == turn.summaries;
  }

  /** The pass over the visible messages. */
  method EmitMessages(turn: Turn) returns (events: seq<Event>, emitted: set<string>)
    ensures events == MessagesUpTo(turn, |turn.messages|) && emitted == EmittedUpTo(turn, |turn.messages|)
  {
    var ordinal := 0;
    events, emitted := [], {};
    for i := 0 to |turn.messages|
      invariant events == MessagesUpTo(turn, i)
      invariant ordinal == OrdinalAt(turn, i) && emitted == EmittedUpTo(turn, i)
    {
      var m := turn.messages[i];
      events := events + MessageEvents(turn, i, ordinal);
      if m.role == ToolRole {
        var id := ResolvedId(turn, m, ordinal);
        if id.Some? {
          emitted := emitted + {id.value};
        }
        if !MatchesById(turn, m) {
          ordinal := ordinal + 1;
        }
      }
    }
  }

  /** `mapTurnToTimelineEvents`. */
  method MapTurnToTimelineEvents(turn: Turn) returns (events: seq<Event>)
    ensures events == TurnEvents(turn)
  {
    var toolMessages := CountToolMessages(turn.messages);
    var legacy := toolMessages == 0 && turn.summaries != [];
    var early: seq<Event>, late: seq<Event> := [], [];
    var emitted: set<string> := {};
    if legacy {
      early, emitted := EmitOrphans(turn, {});
    }
    var middle, byMessages := EmitMessages(turn);
    if !legacy {
      late, emitted := EmitOrphans(turn, byMessages);
    }
    events := Opening(turn) + early + middle + late
              + Listed(turn, ApprovalRequest, turn.approvals) + Listed(turn, ArtifactCreated, turn.artifacts);
  }

  // --------------------------------------------------------------- exactly once

  /** How many of the first `n` events are of a kind and carry a call id. */
  function CountUpTo(events: seq<Event>, n: nat, kind: Kind, id: string): nat
    requires n <= |events|
  {
    if n == 0 then 0
    else CountUpTo(events, n - 1, kind, id) + if events[n - 1].kind == kind && events[n - 1].toolCallId == Some(id)
        then 1 else 0
  }

  function Count(events: seq<Event>, kind: Kind, id: string): nat {
    CountUpTo(events, |events|, kind, id)
  }

  lemma {:induction false} CountFront(a: seq<Event>, b: seq<Event>, n: nat, kind: Kind, id: string)
    requires n <= |a|
    ensures CountUpTo(a + b, n, kind, id) == CountUpTo(a, n, kind, id)
  {
    if n > 0 {
      CountFront(a, b, n - 1, kind, id);
    }
  }

  lemma {:induction false} CountBack(a: seq<Event>, b: seq<Event>, n: nat, kind: Kind, id: string)
    requires n <= |b|
    ensures CountUpTo(a + b, |a| + n, kind, id) == CountUpTo(a, |a|, kind, id) + CountUpTo(b, n, kind, id)
  {
    if n == 0 {
      CountFront(a, b, |a|, kind, id);
    } else {
      CountBack(a, b, n - 1, kind, id);
      assert (a + b)[|a| + n - 1] == b[n - 1];
    }
  }

  lemma CountConcat(a: seq<Event>, b: seq<Event>, kind: Kind, id: string)
    ensures Count(a + b, kind, id) == Count(a, kind, id) + Count(b, kind, id)
  {
    CountBack(a, b, |b|, kind, id);
  }

  /** No event carries a call id. */
  ghost predicate NoCalls(events: seq<Event>) {
    forall i :: 0 <= i < |events| ==> events[i].toolCallId.None? && events[i].kind != ToolCall
  }

  lemma {:induction false} CountNoneUpTo(events: seq<Event>, n: nat, kind: Kind, id: string)
    requires NoCalls(events) && n <= |events|
    ensures CountUpTo(events, n, kind, id) == 0
  {
    if n > 0 {
      CountNoneUpTo(events, n - 1, kind, id);
    }
  }

  lemma CountNone(events: seq<Event>, kind: Kind, id: string)
    requires NoCalls(events)
    ensures Count(events, kind, id) == 0
  {
    CountNoneUpTo(events, |events|, kind, id);
  }

  /** How many of the first `n` messages resolve to a call id. */
  function ResolveCount(turn: Turn, n: nat, id: string): nat
    requires n <= |turn.messages|
  {
    if n == 0 then 0 else ResolveCount(turn, n - 1, id) + if Resolves(turn, n - 1) == Some(id) then 1 else 0
  }

  lemma PairCount(e: Event, f: Event, kind: Kind, id: string)
    requires e.kind == ToolCall && f.kind == ToolResult && e.toolCallId == f.toolCallId
    requires kind == ToolCall || kind == ToolResult
    ensures Count([e, f], kind, id) == if e.toolCallId == Some(id) then 1 else 0
  {
    var pair := [e, f];
    assert CountUpTo(pair, 1, kind, id) == if e.kind == kind && e.toolCallId == Some(id) then 1 else 0;
  }

  lemma MessageCount(turn: Turn, i: nat, kind: Kind, id: string)
    requires i < |turn.messages| && (kind == ToolCall || kind == ToolResult)
    ensures Count(MessageEvents(turn, i, OrdinalAt(turn, i)), kind, id) == if Resolves(turn, i) == Some(id) then 1
              else 0
  {
    var added := MessageEvents(turn, i, OrdinalAt(turn, i));
    if Resolves(turn, i).Some? {
      PairCount(added[0], added[1], kind, id);
      assert added == [added[0], added[1]];
    } else {
      CountNone(added, kind, id);
    }
  }

  lemma MessagesStep(turn: Turn, n: nat, kind: Kind, id: string)
    requires 0 < n <= |turn.messages| && (kind == ToolCall || kind == ToolResult)
    requires Count(MessagesUpTo(turn, n - 1), kind, id) == ResolveCount(turn, n - 1, id)
    ensures Count(MessagesUpTo(turn, n), kind, id) == ResolveCount(turn, n, id)
  {
    var before, added := MessagesUpTo(turn, n - 1), MessageEvents(turn, n - 1, OrdinalAt(turn, n - 1));
    assert MessagesUpTo(turn, n) == before + added;
    CountConcat(before, added, kind, id);
    MessageCount(turn, n - 1, kind, id);
  }

  lemma {:induction false} MessagesCount(turn: Turn, n: nat, kind: Kind, id: string)
    requires n <= |turn.messages| && (kind == ToolCall || kind == ToolResult)
    ensures Count(MessagesUpTo(turn, n), kind, id) == ResolveCount(turn, n, id)
  {
    if n == 0 {
      CountNone([], kind, id);
    } else {
      MessagesCount(turn, n - 1, kind, id);
      MessagesStep(turn, n, kind, id);
    }
  }

  lemma {:induction false} EmittedMeansResolved(turn: Turn, n: nat, id: string)
    requires n <= |turn.messages|
    ensures id in EmittedUpTo(turn, n) <==> ResolveCount(turn, n, id) > 0
  {
    if n > 0 {
      EmittedMeansResolved(turn, n - 1, id);
    }
  }

  lemma OrphanCount(turn: Turn, s: Summary, index: nat, kind: Kind, id: string)
    requires kind == ToolCall || kind == ToolResult
    ensures Count(OrphanPair(turn, s, index), kind, id) == if s.toolCallId == id then 1 else 0
  {
    var pair := OrphanPair(turn, s, index);
    PairCount(pair[0], pair[1], kind, id);
    assert pair == [pair[0], pair[1]];
  }

  lemma SummaryIdsAppend(summaries: seq<Summary>, s: Summary)
    ensures SummaryIds(summaries + [s]) == SummaryIds(summaries) + {s.toolCallId}
  {
    assert forall x :: x in summaries + [s] <==> x in summaries || x == s;
  }

  predicate EmitsOrphan(turn: Turn, emitted: set<string>, n: nat)
    requires n < |turn.summaries|
  {
    turn.summaries[n].toolCallId !in emitted + SummaryIds(turn.summaries[..n])
  }

  lemma OrphansStep(turn: Turn, emitted: set<string>, n: nat, kind: Kind, id: string)
    requires n < |turn.summaries| && (kind == ToolCall || kind == ToolResult)
    ensures Count(OrphansUpTo(turn, emitted, n + 1), kind, id)
         == Count(OrphansUpTo(turn, emitted, n), kind, id)
            + if EmitsOrphan(turn, emitted, n) && turn.summaries[n].toolCallId == id then 1 else 0
  {
    var before := OrphansUpTo(turn, emitted, n);
    if EmitsOrphan(turn, emitted, n) {
      var pair := OrphanPair(turn, turn.summaries[n], n);
      assert OrphansUpTo(turn, emitted, n + 1) == before + pair;
      CountConcat(before, pair, kind, id);
      OrphanCount(turn, turn.summaries[n], n, kind, id);
    } else {
      assert OrphansUpTo(turn, emitted, n + 1) == before + [];
      assert before + [] == before;
    }
  }

  lemma {:induction false} OrphansCount(turn: Turn, emitted: set<string>, n: nat, kind: Kind, id: string)
    requires n <= |turn.summaries| && (kind == ToolCall || kind == ToolResult)
    ensures Count(OrphansUpTo(turn, emitted, n), kind, id) == OnceIn(SummaryIds(turn.summaries[..n]), emitted, id)
  {
    if n == 0 {
      CountNone([], kind, id);
      assert turn.summaries[..0] == [];
    } else {
      OrphansCount(turn, emitted, n - 1, kind, id);
      OrphansNext(turn, emitted, n - 1, kind, id);
    }
  }

  lemma OrphansNext(turn: Turn, emitted: set<string>, n: nat, kind: Kind, id: string)
    requires n < |turn.summaries| && (kind == ToolCall || kind == ToolResult)
    requires Count(OrphansUpTo(turn, emitted, n), kind, id) == OnceIn(SummaryIds(turn.summaries[..n]), emitted, id)
    ensures Count(OrphansUpTo(turn, emitted, n + 1), kind, id)
              == OnceIn(SummaryIds(turn.summaries[..n + 1]), emitted, id)
  {
    OrphansStep(turn, emitted, n, kind, id);
    SummaryIdsNext(turn.summaries, n);
    FirstOfItsId(SummaryIds(turn.summaries[..n]), emitted, turn.summaries[n].toolCallId, id);
  }

  function OnceIn(ids: set<string>, emitted: set<string>, id: string): nat {
    if id in ids && id !in emitted then 1 else 0
  }

  lemma SummaryIdsNext(summaries: seq<Summary>, n: nat)
    requires n < |summaries|
    ensures SummaryIds(summaries[..n + 1]) == SummaryIds(summaries[..n]) + {summaries[n].toolCallId}
  {
    assert summaries[..n + 1] == summaries[..n] + [summaries[n]];
    SummaryIdsAppend(summaries[..n], summaries[n]);
  }

  /** Each id is emitted once: with the first summary that has it. */
  lemma FirstOfItsId(ids: set<string>, emitted: set<string>, next: string, id: string)
    ensures OnceIn(ids, emitted, id) + (if next !in emitted + ids && next == id then 1 else 0)
              == OnceIn(ids + {next}, emitted, id)
  {
  }

  lemma {:induction false} NoToolMessages(turn: Turn, n: nat, id: string)
    requires n <= |turn.messages| && ToolMessages(turn.messages[..n]) == 0
    ensures ResolveCount(turn, n, id) == 0
  {
    if n > 0 {
      assert turn.messages[..n][..n - 1] == turn.messages[..n - 1];
      NoToolMessages(turn, n - 1, id);
    }
  }

  /** The parts of a turn's events that can carry call ids. */
  lemma PartsCount(turn: Turn, kind: Kind, id: string)
    ensures Count(TurnEvents(turn), kind, id)
         == Count(if Legacy(turn) then Orphans(turn, {}) else [], kind, id)
            + Count(MessagesUpTo(turn, |turn.messages|), kind, id)
            + Count(if Legacy(turn) then [] else Orphans(turn, EmittedUpTo(turn, |turn.messages|)), kind, id)
  {
    var early := if Legacy(turn) then Orphans(turn, {}) else [];
    var late := if Legacy(turn) then [] else Orphans(turn, EmittedUpTo(turn, |turn.messages|));
    CountParts(Opening(turn), early, MessagesUpTo(turn, |turn.messages|), late,
               Listed(turn, ApprovalRequest, turn.approvals), Listed(turn, ArtifactCreated, turn.artifacts), kind, id);
  }

  /**
   For every turn and every call id: as many call events, and as many result
   events, as messages resolve to the id; or one pair if none does and a summary
   has the id; or none.
   */
  lemma ExactCounts(turn: Turn, kind: Kind, id: string)
    requires kind == ToolCall || kind == ToolResult
    ensures var resolved := ResolveCount(turn, |turn.messages|, id);
            Count(TurnEvents(turn), kind, id)
            == if resolved > 0 then resolved else if id in SummaryIds(turn.summaries) then 1 else 0
  {
    PartsCount(turn, kind, id);
    CountNone([], kind, id);
    MessagesCount(turn, |turn.messages|, kind, id);
    OrphanParts(turn, kind, id);
  }

  /** The pairs of the summaries: all of them before the messages, or those not emitted after the messages. */
  lemma OrphanParts(turn: Turn, kind: Kind, id: string)
    requires kind == ToolCall || kind == ToolResult
    ensures Legacy(turn) ==> ResolveCount(turn, |turn.messages|, id) == 0
    ensures Legacy(turn) ==> Count(Orphans(turn, {}), kind, id) == if id in SummaryIds(turn.summaries) then 1 else 0
    ensures !Legacy(turn) ==>
              Count(Orphans(turn, EmittedUpTo(turn, |turn.messages|)), kind, id)
              == if id in SummaryIds(turn.summaries) && ResolveCount(turn, |turn.messages|, id) == 0 then 1 else 0
  {
    var n := |turn.messages|;
    assert turn.summaries[..|turn.summaries|] == turn.summaries;
    if Legacy(turn) {
      OrphansCount(turn, {}, |turn.summaries|, kind, id);
      assert turn.messages[..n] == turn.messages;
      NoToolMessages(turn, n, id);
    } else {
      EmittedMeansResolved(turn, n, id);
      OrphansCount(turn, EmittedUpTo(turn, n), |turn.summaries|, kind, id);
    }
  }

  lemma CountParts(a: seq<Event>, b: seq<Event>, c: seq<Event>, d: seq<Event>, e: seq<Event>, f: seq<Event>, kind: Kind,
                   id: string)
    requires NoCalls(a) && NoCalls(e) && NoCalls(f)
    ensures Count(a + b + c + d + e + f, kind, id) == Count(b, kind, id) + Count(c, kind, id) + Count(d, kind, id)
  {
    CountConcat(a + b + c + d + e, f, kind, id);
    CountConcat(a + b + c + d, e, kind, id);
    CountConcat(a + b + c, d, kind, id);
    CountConcat(a + b, c, kind, id);
    CountConcat(a, b, kind, id);
    CountNone(a, kind, id);
    CountNone(e, kind, id);
    CountNone(f, kind, id);
  }

  /**
   A summary's id appears exactly once as a call and once as a result if and only if at
   most one message resolves to it.
   */
  lemma ExactlyOnceIff(turn: Turn, id: string)
    requires id in SummaryIds(turn.summaries)
    ensures Count(TurnEvents(turn), ToolCall, id) == Count(TurnEvents(turn), ToolResult, id)
    ensures Count(TurnEvents(turn), ToolCall, id) == 1 <==> ResolveCount(turn, |turn.messages|, id) <= 1
  {
    ExactCounts(turn, ToolCall, id);
    ExactCounts(turn, ToolResult, id);
  }

  // ------------------------------------------------- the two ways messages come

  /** Every tool message carries its own, non-empty call id. */
  ghost predicate AllCarryDistinctIds(turn: Turn) {
    && (forall i :: 0 <= i < |turn.messages| && turn.messages[i].role == ToolRole ==>
          turn.messages[i].toolCallId.Some? && turn.messages[i].toolCallId.value != "")
    && (forall i, j :: 0 <= i < j < |turn.messages| && turn.messages[i].role == turn.messages[j].role == ToolRole ==>
          turn.messages[i].toolCallId != turn.messages[j].toolCallId)
  }

  /** No tool message carries a call id. */
  ghost predicate AllLackIds(turn: Turn) {
    forall i :: 0 <= i < |turn.messages| && turn.messages[i].role == ToolRole ==> turn.messages[i].toolCallId.None?
  }

  lemma {:induction false} NobodyResolves(turn: Turn, n: nat, id: string)
    requires n <= |turn.messages| && forall i :: 0 <= i < n ==> Resolves(turn, i) != Some(id)
    ensures ResolveCount(turn, n, id) == 0
  {
    if n > 0 {
      NobodyResolves(turn, n - 1, id);
    }
  }

  lemma CarriedIdResolves(turn: Turn, i: nat)
    requires AllCarryDistinctIds(turn) && i < |turn.messages|
    ensures Resolves(turn, i) == if turn.messages[i].role == ToolRole then turn.messages[i].toolCallId else None
  {
  }

  lemma {:induction false} CarriedIdsResolveOnce(turn: Turn, n: nat, id: string)
    requires AllCarryDistinctIds(turn) && n <= |turn.messages|
    ensures ResolveCount(turn, n, id) <= 1
  {
    if n > 0 {
      CarriedIdResolves(turn, n - 1);
      if Resolves(turn, n - 1) == Some(id) {
        forall i | 0 <= i < n - 1 ensures Resolves(turn, i) != Some(id) {
          CarriedIdResolves(turn, i);
        }
        NobodyResolves(turn, n - 1, id);
      } else {
        CarriedIdsResolveOnce(turn, n - 1, id);
      }
    }
  }

  /** When all tool messages carry distinct ids, every summary id appears exactly once, by message or as an orphan. */
  lemma CarriedIdsExactlyOnce(turn: Turn, id: string)
    requires AllCarryDistinctIds(turn) && id in SummaryIds(turn.summaries)
    ensures Count(TurnEvents(turn), ToolCall, id) == Count(TurnEvents(turn), ToolResult, id) == 1
  {
    CarriedIdsResolveOnce(turn, |turn.messages|, id);
    ExactlyOnceIff(turn, id);
  }

  /** How many of the first `n` summaries have an id. */
  function Multiplicity(summaries: seq<Summary>, n: nat, id: string): nat
    requires n <= |summaries|
  {
    if n == 0 then 0 else Multiplicity(summaries, n - 1, id) + if summaries[n - 1].toolCallId == id then 1 else 0
  }

  lemma {:induction false} OrdinalCounts(turn: Turn, n: nat)
    requires AllLackIds(turn) && n <= |turn.messages|
    ensures OrdinalAt(turn, n) == ToolMessages(turn.messages[..n])
    ensures OrdinalAt(turn, n) <= ToolMessages(turn.messages)
    decreases n
  {
    if n > 0 {
      assert turn.messages[..n][..n - 1] == turn.messages[..n - 1];
      OrdinalCounts(turn, n - 1);
    }
    ToolMessagesGrow(turn.messages, n);
  }

  lemma {:induction false} ToolMessagesGrow(messages: seq<Message>, n: nat)
    requires n <= |messages|
    ensures ToolMessages(messages[..n]) <= ToolMessages(messages)
    ensures n < |messages| && messages[n].role == ToolRole ==> ToolMessages(messages[..n]) < ToolMessages(messages)
    decreases |messages| - n
  {
    if n == |messages| {
      assert messages[..n] == messages;
    } else {
      assert messages[..n + 1][..n] == messages[..n];
      ToolMessagesGrow(messages, n + 1);
    }
  }

  lemma {:induction false} LackingIdsResolve(turn: Turn, n: nat, id: string)
    requires AllLackIds(turn) && ByOrdinal(turn) && id != "" && n <= |turn.messages|
    ensures OrdinalAt(turn, n) <= |turn.summaries|
    ensures ResolveCount(turn, n, id) == Multiplicity(turn.summaries, OrdinalAt(turn, n), id)
  {
    OrdinalCounts(turn, n);
    if n > 0 {
      LackingIdsResolve(turn, n - 1, id);
    }
  }

  lemma LackingIdsCount(turn: Turn, id: string)
    requires AllLackIds(turn)
    ensures ResolveCount(turn, |turn.messages|, id)
         == if ByOrdinal(turn) && id != "" then Multiplicity(turn.summaries, |turn.summaries|, id) else 0
  {
    var n := |turn.messages|;
    if ByOrdinal(turn) && id != "" {
      LackingIdsResolve(turn, n, id);
      OrdinalCounts(turn, n);
      assert turn.messages[..n] == turn.messages;
    } else {
      forall i | 0 <= i < n ensures Resolves(turn, i) != Some(id) {
      }
      NobodyResolves(turn, n, id);
    }
  }

  /**
   When no tool message carries an id, a summary id appears exactly once if and
   only if the summaries are not matched by position or the id is not repeated
   among them.
   */
  lemma LackingIdsExactlyOnceIff(turn: Turn, id: string)
    requires AllLackIds(turn) && id in SummaryIds(turn.summaries)
    ensures Count(TurnEvents(turn), ToolCall, id) == Count(TurnEvents(turn), ToolResult, id)
    ensures Count(TurnEvents(turn), ToolCall, id) == 1 <==>
              !ByOrdinal(turn) || id == "" || Multiplicity(turn.summaries, |turn.summaries|, id) <= 1
  {
    LackingIdsCount(turn, id);
    ExactlyOnceIff(turn, id);
  }

  /** Two summaries with one id and two messages without ids: the call is shown twice. */
  lemma RepeatedSummaryIdShowsTwice()
    ensures var m := Message(ToolRole, "", None, None, None, None, None);
            var s := Summary("a", "t", "completed", None, None);
            var turn := Turn("", None, 0, [m, m], [s, s], [], []);
            AllLackIds(turn) && Count(TurnEvents(turn), ToolCall, "a") == 2
  {
    var m := Message(ToolRole, "", None, None, None, None, None);
    var s := Summary("a", "t", "completed", None, None);
    var turn := Turn("", None, 0, [m, m], [s, s], [], []);
    assert [m, m][..1] == [m] && [m][..0] == [];
    assert ToolMessages([m]) == 1;
    assert Multiplicity([s, s], 1, "a") == 1;
    LackingIdsCount(turn, "a");
    ExactCounts(turn, ToolCall, "a");
  }

  // ------------------------------------------------------------------ adjacency

  /**
   A call event is directly followed by the result event of the same call, and a result
   event preceded by its call.
   */
  ghost predicate AdjacentAt(events: seq<Event>, k: nat)
    requires k < |events|
  {
    && (events[k].kind == ToolCall ==>
          k + 1 < |events| && events[k + 1].kind == ToolResult && events[k + 1].toolCallId == events[k].toolCallId)
    && (events[k].kind == ToolResult && events[k].toolCallId.Some? ==>
          k > 0 && events[k - 1].kind == ToolCall && events[k - 1].toolCallId == events[k].toolCallId)
  }

  ghost predicate Adjacent(events: seq<Event>) {
    forall k {:trigger AdjacentAt(events, k)} :: 0 <= k < |events| ==> AdjacentAt(events, k)
  }

  lemma AdjacentConcat(a: seq<Event>, b: seq<Event>)
    requires Adjacent(a) && Adjacent(b)
    ensures Adjacent(a + b)
  {
    forall k | 0 <= k < |a + b|
      ensures AdjacentAt(a + b, k)
    {
      if k < |a| {
        assert AdjacentAt(a, k);
      } else {
        assert AdjacentAt(b, k - |a|);
      }
    }
  }

  lemma MessageAdjacent(turn: Turn, i: nat, ordinal: nat)
    requires i < |turn.messages|
    ensures Adjacent(MessageEvents(turn, i, ordinal))
  {
  }

  lemma {:induction false} MessagesAdjacent(turn: Turn, n: nat)
    requires n <= |turn.messages|
    ensures Adjacent(MessagesUpTo(turn, n))
  {
    if n > 0 {
      MessagesAdjacent(turn, n - 1);
      MessageAdjacent(turn, n - 1, OrdinalAt(turn, n - 1));
      AdjacentConcat(MessagesUpTo(turn, n - 1), MessageEvents(turn, n - 1, OrdinalAt(turn, n - 1)));
    }
  }

  lemma OrphanAdjacent(turn: Turn, s: Summary, index: nat)
    ensures Adjacent(OrphanPair(turn, s, index))
  {
  }

  lemma {:induction false} OrphansAdjacent(turn: Turn, emitted: set<string>, n: nat)
    requires n <= |turn.summaries|
    ensures Adjacent(OrphansUpTo(turn, emitted, n))
  {
    if n > 0 {
      OrphansAdjacent(turn, emitted, n - 1);
      OrphanAdjacent(turn, turn.summaries[n - 1], n - 1);
      AdjacentConcat(OrphansUpTo(turn, emitted, n - 1), OrphanPair(turn, turn.summaries[n - 1], n - 1));
      assert OrphansUpTo(turn, emitted, n - 1) + [] == OrphansUpTo(turn, emitted, n - 1);
    }
  }

  lemma OutsideAdjacent(turn: Turn)
    ensures Adjacent(Opening(turn))
    ensures Adjacent(Listed(turn, ApprovalRequest, turn.approvals))
    ensures Adjacent(Listed(turn, ArtifactCreated, turn.artifacts))
  {
  }

  lemma OrphanPartsAdjacent(turn: Turn)
    ensures Adjacent(if Legacy(turn) then Orphans(turn, {}) else [])
    ensures Adjacent(if Legacy(turn) then [] else Orphans(turn, EmittedUpTo(turn, |turn.messages|)))
  {
    OrphansAdjacent(turn, {}, |turn.summaries|);
    OrphansAdjacent(turn, EmittedUpTo(turn, |turn.messages|), |turn.summaries|);
  }

  /** In every turn, each tool call stands immediately before its result. */
  lemma CallsStandBeforeResults(turn: Turn)
    ensures Adjacent(TurnEvents(turn))
  {
    OutsideAdjacent(turn);
    OrphanPartsAdjacent(turn);
    MessagesAdjacent(turn, |turn.messages|);
    AdjacentSix(Opening(turn), if Legacy(turn) then Orphans(turn, {}) else [], MessagesUpTo(turn, |turn.messages|),
                if Legacy(turn) then [] else Orphans(turn, EmittedUpTo(turn, |turn.messages|)),
                Listed(turn, ApprovalRequest, turn.approvals), Listed(turn, ArtifactCreated, turn.artifacts));
  }

  lemma AdjacentSix(a: seq<Event>, b: seq<Event>, c: seq<Event>, d: seq<Event>, e: seq<Event>, f: seq<Event>)
    requires Adjacent(a) && Adjacent(b) && Adjacent(c) && Adjacent(d) && Adjacent(e) && Adjacent(f)
    ensures Adjacent(a + b + c + d + e + f)
  {
    AdjacentConcat(a, b);
    AdjacentConcat(a + b, c);
    AdjacentConcat(a + b + c, d);
    AdjacentConcat(a + b + c + d, e);
    AdjacentConcat(a + b + c + d + e, f);
  }

  // ------------------------------------------------------ what is said, each time once

  /** What those of the first `n` events that have a kind say, and when, in order. */
  function SayingsUpTo(events: seq<Event>, n: nat, kind: Kind): seq<(string, int)>
    requires n <= |events|
  {
    if n == 0 then []
    else
      SayingsUpTo(events, n - 1, kind)
      + (if events[n - 1].kind == kind then [(events[n - 1].content, events[n - 1].timestamp)] else [])
  }

  function Sayings(events: seq<Event>, kind: Kind): seq<(string, int)> {
    SayingsUpTo(events, |events|, kind)
  }

  lemma {:induction false} SayingsFront(a: seq<Event>, b: seq<Event>, n: nat, kind: Kind)
    requires n <= |a|
    ensures SayingsUpTo(a + b, n, kind) == SayingsUpTo(a, n, kind)
  {
    if n > 0 {
      SayingsFront(a, b, n - 1, kind);
    }
  }

  lemma {:induction false} SayingsBack(a: seq<Event>, b: seq<Event>, n: nat, kind: Kind)
    requires n <= |b|
    ensures SayingsUpTo(a + b, |a| + n, kind) == SayingsUpTo(a, |a|, kind) + SayingsUpTo(b, n, kind)
  {
    if n == 0 {
      SayingsFront(a, b, |a|, kind);
    } else {
      SayingsBack(a, b, n - 1, kind);
      assert (a + b)[|a| + n - 1] == b[n - 1];
    }
  }

  lemma SayingsConcat(a: seq<Event>, b: seq<Event>, kind: Kind)
    ensures Sayings(a + b, kind) == Sayings(a, kind) + Sayings(b, kind)
  {
    SayingsBack(a, b, |b|, kind);
  }

  lemma {:induction false} NothingSaidUpTo(events: seq<Event>, n: nat, kind: Kind)
    requires NoneOfKind(events, kind) && n <= |events|
    ensures SayingsUpTo(events, n, kind) == []
  {
    if n > 0 {
      NothingSaidUpTo(events, n - 1, kind);
    }
  }

  lemma NothingSaid(events: seq<Event>, kind: Kind)
    requires NoneOfKind(events, kind)
    ensures Sayings(events, kind) == []
  {
    NothingSaidUpTo(events, |events|, kind);
  }

  lemma OneSaid(e: Event, kind: Kind)
    ensures Sayings([e], kind) == if e.kind == kind then [(e.content, e.timestamp)] else []
  {
    assert SayingsUpTo([e], 0, kind) == [];
  }

  /** What the messages with a role say, and when, in order; a message without a time has the turn's. */
  function Said(turn: Turn, role: Role, n: nat): seq<(string, int)>
    requires n <= |turn.messages|
  {
    if n == 0 then []
    else
      var m := turn.messages[n - 1];
      var at := if m.timestamp.Some? then m.timestamp.value else turn.createdAt;
      Said(turn, role, n - 1) + (if m.role == role then [(m.content, at)] else [])
  }

  /** The messages with this role are shown as events of this kind. */
  ghost predicate IsShownAs(role: Role, kind: Kind) {
    || (role == AssistantRole && kind == AssistantMessage)
    || (role == ThinkingRole && kind == ThinkingSummary)
    || (role == StatusRole && kind == SystemStatus)
    || (role == ApprovalRole && kind == ApprovalDecision)
    || (role == ErrorRole && kind == ErrorKind)
  }

  /** The events of the `i`-th message say what the message says, if it has the role. */
  ghost predicate PartSays(turn: Turn, i: nat, part: seq<Event>, role: Role, kind: Kind)
    requires i < |turn.messages|
  {
    var m := turn.messages[i];
    Sayings(part, kind) == if m.role == role then [(m.content, m.timestamp.GetOr(turn.createdAt))] else []
  }

  lemma MessageSaid(turn: Turn, i: nat, role: Role, kind: Kind)
    requires i < |turn.messages| && IsShownAs(role, kind)
    ensures PartSays(turn, i, MessageEvents(turn, i, OrdinalAt(turn, i)), role, kind)
  {
    var events := MessageEvents(turn, i, OrdinalAt(turn, i));
    if turn.messages[i].role == ToolRole || turn.messages[i].role == OtherRole {
      NothingSaid(events, kind);
    } else {
      OneSaid(events[0], kind);
    }
  }

  ghost predicate IsUpTo(turn: Turn, n: nat, events: seq<Event>) {
    n <= |turn.messages| && forall k {:trigger Open(k)} :: Open(k) ==> events == MessagesUpTo(turn, n)
  }

  lemma NextPart(turn: Turn, n: nat, before: seq<Event>, role: Role, kind: Kind) returns (added: seq<Event>)
    requires n < |turn.messages| && IsUpTo(turn, n, before) && IsShownAs(role, kind)
    ensures PartSays(turn, n, added, role, kind) && IsUpTo(turn, n + 1, before + added)
  {
    assert Open(0);
    added := MessageEvents(turn, n, OrdinalAt(turn, n));
    MessageSaid(turn, n, role, kind);
  }

  lemma OneMoreSaid(turn: Turn, n: nat, before: seq<Event>, added: seq<Event>, role: Role, kind: Kind)
    requires 0 < n <= |turn.messages| && PartSays(turn, n - 1, added, role, kind)
    requires Sayings(before, kind) == Said(turn, role, n - 1)
    ensures Sayings(before + added, kind) == Said(turn, role, n)
  {
    SayingsConcat(before, added, kind);
  }

  lemma {:induction false} PartsSay(turn: Turn, n: nat, role: Role, kind: Kind) returns (events: seq<Event>)
    requires n <= |turn.messages| && IsShownAs(role, kind)
    ensures IsUpTo(turn, n, events) && Sayings(events, kind) == Said(turn, role, n)
  {
    events := [];
    if n > 0 {
      var before := PartsSay(turn, n - 1, role, kind);
      var added := NextPart(turn, n - 1, before, role, kind);
      events := before + added;
      OneMoreSaid(turn, n, before, added, role, kind);
    }
  }

  lemma MessagesSaid(turn: Turn, role: Role, kind: Kind)
    requires IsShownAs(role, kind)
    ensures Sayings(MessagesUpTo(turn, |turn.messages|), kind) == Said(turn, role, |turn.messages|)
  {
    var events := PartsSay(turn, |turn.messages|, role, kind);
    assert Open(0);
  }

  /** No event has this kind. */
  ghost predicate NoneOfKind(events: seq<Event>, kind: Kind) {
    forall i :: 0 <= i < |events| ==> events[i].kind != kind
  }

  lemma {:induction false} OrphansSayNothing(turn: Turn, emitted: set<string>, n: nat, kind: Kind)
    requires n <= |turn.summaries| && kind != ToolCall && kind != ToolResult
    ensures NoneOfKind(OrphansUpTo(turn, emitted, n), kind)
  {
    if n > 0 {
      OrphansSayNothing(turn, emitted, n - 1, kind);
    }
  }

  lemma SayingsSix(a: seq<Event>, b: seq<Event>, c: seq<Event>, d: seq<Event>, e: seq<Event>, f: seq<Event>, kind: Kind)
    requires NoneOfKind(b, kind) && NoneOfKind(d, kind)
    ensures Sayings(a + b + c + d + e + f, kind)
         == Sayings(a, kind) + Sayings(c, kind) + Sayings(e, kind) + Sayings(f, kind)
  {
    NothingSaid(b, kind);
    NothingSaid(d, kind);
    SayingsConcat(a + b + c + d + e, f, kind);
    SayingsConcat(a + b + c + d, e, kind);
    SayingsConcat(a + b + c, d, kind);
    SayingsConcat(a + b, c, kind);
    SayingsConcat(a, b, kind);
  }

  /** What a turn says apart from its tools, part by part. */
  lemma TurnSays(turn: Turn, kind: Kind)
    requires kind != ToolCall && kind != ToolResult
    ensures Sayings(TurnEvents(turn), kind)
         == Sayings(Opening(turn), kind) + Sayings(MessagesUpTo(turn, |turn.messages|), kind)
            + Sayings(Listed(turn, ApprovalRequest, turn.approvals), kind)
            + Sayings(Listed(turn, ArtifactCreated, turn.artifacts), kind)
  {
    OrphansSayNothing(turn, {}, |turn.summaries|, kind);
    OrphansSayNothing(turn, EmittedUpTo(turn, |turn.messages|), |turn.summaries|, kind);
    SayingsSix(Opening(turn), if Legacy(turn) then Orphans(turn, {}) else [], MessagesUpTo(turn, |turn.messages|),
               if Legacy(turn) then [] else Orphans(turn, EmittedUpTo(turn, |turn.messages|)),
               Listed(turn, ApprovalRequest, turn.approvals), Listed(turn, ArtifactCreated, turn.artifacts), kind);
  }

  /**
   Assistant, thinking, status, approval and error messages each yield exactly one event of
   their kind, with their content and time, in order, and there are no others.
   */
  lemma MessagesAreShownOnce(turn: Turn, role: Role, kind: Kind)
    requires IsShownAs(role, kind)
    ensures Sayings(TurnEvents(turn), kind) == Said(turn, role, |turn.messages|)
  {
    OnlyMessagesSay(turn, role, kind);
    MessagesSaid(turn, role, kind);
  }

  lemma OnlyMessagesSay(turn: Turn, role: Role, kind: Kind)
    requires IsShownAs(role, kind)
    ensures Sayings(TurnEvents(turn), kind) == Sayings(MessagesUpTo(turn, |turn.messages|), kind)
  {
    TurnSays(turn, kind);
    OpeningSaid(turn, kind);
    ListSaid(turn, ApprovalRequest, turn.approvals, kind);
    ListSaid(turn, ArtifactCreated, turn.artifacts, kind);
    Alone(Sayings(MessagesUpTo(turn, |turn.messages|), kind));
  }

  lemma Alone<T>(s: seq<T>)
    ensures [] + s + [] + [] == s
  {
  }

  /** Contents of the turn's own lists, all at the turn's time. */
  function AllAt(contents: seq<string>, at: int): (r: seq<(string, int)>)
    ensures |r| == |contents|
  {
    seq(|contents|, i requires 0 <= i < |contents| => (contents[i], at))
  }

  lemma {:induction false} ListedSaid(turn: Turn, listed: Kind, contents: seq<string>, n: nat, kind: Kind)
    requires n <= |contents|
    ensures SayingsUpTo(Listed(turn, listed, contents), n, kind)
              == if listed == kind then AllAt(contents[..n], turn.createdAt) else []
  {
    if n > 0 {
      ListedSaid(turn, listed, contents, n - 1, kind);
      assert AllAt(contents[..n], turn.createdAt)
          == AllAt(contents[..n - 1], turn.createdAt) + [(contents[n - 1], turn.createdAt)];
    }
  }

  /** What a list of the turn's own says. */
  lemma ListSaid(turn: Turn, listed: Kind, contents: seq<string>, kind: Kind)
    ensures Sayings(Listed(turn, listed, contents), kind)
              == if listed == kind then AllAt(contents, turn.createdAt) else []
  {
    ListedSaid(turn, listed, contents, |contents|, kind);
    assert contents[..|contents|] == contents;
  }

  lemma OpeningSaid(turn: Turn, kind: Kind)
    ensures Sayings(Opening(turn), kind)
              == if turn.userMessage == "" || kind != UserMessage then []
                 else [(turn.userMessage, turn.inboundAt.GetOr(turn.createdAt))]
  {
    if turn.userMessage != "" {
      OneSaid(Opening(turn)[0], kind);
      assert Opening(turn) == [Opening(turn)[0]];
    }
  }

  lemma {:induction false} MessagesSayNothing(turn: Turn, n: nat, kind: Kind)
    requires n <= |turn.messages| && kind in {UserMessage, ApprovalRequest, ArtifactCreated}
    ensures NoneOfKind(MessagesUpTo(turn, n), kind)
  {
    if n > 0 {
      MessagesSayNothing(turn, n - 1, kind);
      MessageSaysNothing(turn, n - 1, OrdinalAt(turn, n - 1), kind);
      NoneInBoth(MessagesUpTo(turn, n - 1), MessageEvents(turn, n - 1, OrdinalAt(turn, n - 1)), kind);
    }
  }

  lemma MessageSaysNothing(turn: Turn, i: nat, ordinal: nat, kind: Kind)
    requires i < |turn.messages| && kind in {UserMessage, ApprovalRequest, ArtifactCreated}
    ensures NoneOfKind(MessageEvents(turn, i, ordinal), kind)
  {
  }

  lemma NoneInBoth(a: seq<Event>, b: seq<Event>, kind: Kind)
    requires NoneOfKind(a, kind) && NoneOfKind(b, kind)
    ensures NoneOfKind(a + b, kind)
  {
  }

  /** What a turn says outside its messages and tools. */
  lemma ListSays(turn: Turn, kind: Kind)
      returns (opening: seq<(string, int)>, approvals: seq<(string, int)>, artifacts: seq<(string, int)>)
    requires kind in {UserMessage, ApprovalRequest, ArtifactCreated}
    ensures Sayings(TurnEvents(turn), kind) == opening + approvals + artifacts
    ensures opening == if turn.userMessage == "" || kind != UserMessage then []
                       else [(turn.userMessage, turn.inboundAt.GetOr(turn.createdAt))]
    ensures approvals == if kind == ApprovalRequest then AllAt(turn.approvals, turn.createdAt) else []
    ensures artifacts == if kind == ArtifactCreated then AllAt(turn.artifacts, turn.createdAt) else []
  {
    TurnSays(turn, kind);
    MessagesAreSilent(turn, kind);
    opening := Sayings(Opening(turn), kind);
    approvals := Sayings(Listed(turn, ApprovalRequest, turn.approvals), kind);
    artifacts := Sayings(Listed(turn, ArtifactCreated, turn.artifacts), kind);
    OpeningSaid(turn, kind);
    ListSaid(turn, ApprovalRequest, turn.approvals, kind);
    ListSaid(turn, ArtifactCreated, turn.artifacts, kind);
    assert opening + [] == opening;
  }

  lemma MessagesAreSilent(turn: Turn, kind: Kind)
    requires kind in {UserMessage, ApprovalRequest, ArtifactCreated}
    ensures Sayings(MessagesUpTo(turn, |turn.messages|), kind) == []
  {
    MessagesSayNothing(turn, |turn.messages|, kind);
    NothingSaid(MessagesUpTo(turn, |turn.messages|), kind);
  }

  /** The user's message unless it is empty, the approvals and the artifacts: one event each, in order. */
  lemma ListsAreShownOnce(turn: Turn, kind: Kind)
    requires kind in {UserMessage, ApprovalRequest, ArtifactCreated}
    ensures Sayings(TurnEvents(turn), kind)
         == match kind
            case ApprovalRequest => AllAt(turn.approvals, turn.createdAt)
            case ArtifactCreated => AllAt(turn.artifacts, turn.createdAt)
            case _ =>
              if turn.userMessage == "" then []
              else [(turn.userMessage, if turn.inboundAt.Some? then turn.inboundAt.value else turn.createdAt)]
  {
    var opening, approvals, artifacts := ListSays(turn, kind);
    OnlyOneSays(turn, kind, opening, approvals, artifacts);
  }

  lemma OnlyOneSays(turn: Turn, kind: Kind, opening: seq<(string, int)>, approvals: seq<(string, int)>,
                    artifacts: seq<(string, int)>)
    requires kind in {UserMessage, ApprovalRequest, ArtifactCreated}
    requires kind != UserMessage ==> opening == []
    requires kind != ApprovalRequest ==> approvals == []
    requires kind != ArtifactCreated ==> artifacts == []
    ensures opening + approvals + artifacts
         == match kind case ApprovalRequest => approvals case ArtifactCreated => artifacts case _ => opening
  {
  }

  /** The last summary with an id is the one found by it; none is found under an empty id. */
  lemma {:induction false} ByIdIs(summaries: seq<Summary>, id: string)
    ensures ById(summaries, id).None? <==>
              id == "" || forall k :: 0 <= k < |summaries| ==> summaries[k].toolCallId != id
    ensures ById(summaries, id).Some? ==>
              exists k :: 0 <= k < |summaries| && ById(summaries, id).value == summaries[k]
                && summaries[k].toolCallId == id
                && forall m :: k < m < |summaries| ==> summaries[m].toolCallId != id
  {
    if summaries != [] && id != "" && summaries[|summaries| - 1].toolCallId != id {
      var init := summaries[..|summaries| - 1];
      ByIdIs(init, id);
      assert forall k :: 0 <= k < |init| ==> init[k] == summaries[k];
      if ById(init, id).Some? {
        var k :| 0 <= k < |init| && ById(init, id).value == init[k] && init[k].toolCallId == id
            && forall m :: k < m < |init| ==> init[m].toolCallId != id;
        assert ById(summaries, id).value == summaries[k];
      }
    }
  }

  /**
   What the events of a tool message tell. The result has the message's content and time, and its
   status: its own, else its summary's with "pending" shown as "completed", else "completed".
   The call, if the message resolves to an id, has the summary's status and start, if any.
   */
  lemma ToolMessageTells(turn: Turn, i: nat, ordinal: nat)
    requires i < |turn.messages| && turn.messages[i].role == ToolRole
    ensures var m, events := turn.messages[i], MessageEvents(turn, i, ordinal);
            var summary, id := Associated(turn, m, ordinal), ResolvedId(turn, m, ordinal);
            var result := events[|events| - 1];
            var at := if m.timestamp.Some? then m.timestamp.value else turn.createdAt;
            && |events| == (if id.Some? then 2 else 1)
            && result.kind == ToolResult && result.content == m.content && result.timestamp == at
            && result.toolCallId == id
            && result.status == (if m.toolStatus.Some? then m.toolStatus.value
                                 else if summary.None? || summary.value.status == "pending" then "completed"
                                 else summary.value.status)
            && (id.Some? ==>
                  && events[0].kind == ToolCall && events[0].toolCallId == id
                  && events[0].status == (if summary.Some? then summary.value.status else result.status)
                  && events[0].timestamp == if summary.Some? && summary.value.startedAt.Some?
                                            then summary.value.startedAt.value else at)
  {
  }

  lemma {:induction false} NoToolMessage(messages: seq<Message>)
    ensures ToolMessages(messages) == 0 <==> forall i :: 0 <= i < |messages| ==> messages[i].role != ToolRole
  {
    if messages != [] {
      NoToolMessage(messages[..|messages| - 1]);
    }
  }

  /** A message's events carry its sequence or else its index; without tool messages they come after all summaries. */
  lemma MessageSequence(turn: Turn, i: nat, ordinal: nat)
    requires i < |turn.messages|
    ensures forall e :: e in MessageEvents(turn, i, ordinal) ==>
              e.turnSequence == Some(
                if turn.summaries != [] && (forall k :: 0 <= k < |turn.messages| ==> turn.messages[k].role != ToolRole)
                then |turn.summaries| + i
                else if turn.messages[i].turnSequence.Some? then turn.messages[i].turnSequence.value else i)
  {
    NoToolMessage(turn.messages);
  }

  /** What the pair of an orphan summary tells. */
  lemma OrphanTells(turn: Turn, s: Summary, index: nat)
    ensures var pair := OrphanPair(turn, s, index);
            var at := if s.startedAt.Some? then s.startedAt.value else turn.createdAt;
            && |pair| == 2 && pair[0].kind == ToolCall && pair[1].kind == ToolResult
            && pair[0].toolCallId == pair[1].toolCallId == Some(s.toolCallId)
            && pair[0].timestamp == pair[1].timestamp == at
            && pair[0].status == s.status
            && pair[1].status == (if s.status == "pending" then "completed" else s.status)
            && pair[0].turnSequence == pair[1].turnSequence
               == Some(if s.turnSequence.Some? then s.turnSequence.value else index)
  {
  }

  // ------------------------------------------------------------------- ordering

  function Rank(e: Event): int {
    match e.kind
    case UserMessage => 0
    case ToolCall => 1
    case ToolResult => 2
    case AssistantMessage => 3
    case _ => 4
  }

  /** The comparator of `getTimeline`: newest first, then turn sequence, rank and id; `collate` orders the ids. */
  predicate Before(a: Event, b: Event, collate: EventId -> int) {
    if a.timestamp != b.timestamp then a.timestamp > b.timestamp
    else if a.turnSequence.Some? && b.turnSequence.Some? && a.turnSequence != b.turnSequence
        then a.turnSequence.value < b.turnSequence.value
    else if Rank(a) != Rank(b) then Rank(a) < Rank(b)
    else collate(a.id) < collate(b.id)
  }

  /** Rank and id decide among events that are not told apart by time and sequence. */
  predicate KeyAtMost(a: Event, b: Event, collate: EventId -> int) {
    Rank(a) < Rank(b) || (Rank(a) == Rank(b) && collate(a.id) <= collate(b.id))
  }

  /** Two numbered events of one moment, and one without a number that belongs between them the other way round. */
  predicate Clash(x: Event, y: Event, z: Event, collate: EventId -> int) {
    && x.timestamp == y.timestamp == z.timestamp
    && x.turnSequence.Some? && y.turnSequence.Some? && z.turnSequence.None?
    && x.turnSequence.value < y.turnSequence.value
    && KeyAtMost(y, z, collate) && KeyAtMost(z, x, collate)
  }

  ghost predicate ClashFree(a: Event, b: Event, c: Event, collate: EventId -> int) {
    && !Clash(a, b, c, collate) && !Clash(b, a, c, collate) && !Clash(a, c, b, collate)
    && !Clash(c, a, b, collate) && !Clash(b, c, a, collate) && !Clash(c, b, a, collate)
  }

  /**
   What a sort needs of its comparator, on one triple: asymmetric, and neither order
   nor disorder is lost through a third.
   */
  ghost predicate WeaklyOrdered(a: Event, b: Event, c: Event, collate: EventId -> int) {
    && !(Before(a, b, collate) && Before(b, a, collate))
    && (Before(a, b, collate) && Before(b, c, collate) ==> Before(a, c, collate))
    && (!Before(a, b, collate) && !Before(b, c, collate) ==> !Before(a, c, collate))
  }

  ghost predicate StrictWeakOrder(events: seq<Event>, collate: EventId -> int) {
    forall i, j, k :: 0 <= i < |events| && 0 <= j < |events| && 0 <= k < |events| ==>
      WeaklyOrdered(events[i], events[j], events[k], collate)
  }

  ghost predicate NoClash(events: seq<Event>, collate: EventId -> int) {
    forall i, j, k :: 0 <= i < |events| && 0 <= j < |events| && 0 <= k < |events| ==>
      !Clash(events[i], events[j], events[k], collate)
  }

  lemma ClashFreeOrders(a: Event, b: Event, c: Event, collate: EventId -> int)
    requires ClashFree(a, b, c, collate)
    ensures WeaklyOrdered(a, b, c, collate)
  {
  }

  /** In a clash the numbers put `x` before `y`, but `x` is not before `z` and `z` is not before `y`. */
  lemma ClashDisorders(x: Event, y: Event, z: Event, collate: EventId -> int)
    requires Clash(x, y, z, collate)
    ensures !WeaklyOrdered(x, z, y, collate)
  {
  }

  /** The comparator orders a list strictly and weakly exactly when no three of its events clash. */
  lemma ComparatorOrdersIff(events: seq<Event>, collate: EventId -> int)
    ensures StrictWeakOrder(events, collate) <==> NoClash(events, collate)
  {
    if NoClash(events, collate) {
      forall i, j, k | 0 <= i < |events| && 0 <= j < |events| && 0 <= k < |events|
        ensures WeaklyOrdered(events[i], events[j], events[k], collate)
      {
        ClashFreeOrders(events[i], events[j], events[k], collate);
      }
    } else {
      var i, j, k :| 0 <= i < |events| && 0 <= j < |events| && 0 <= k < |events|
          && Clash(events[i], events[j], events[k], collate);
      ClashDisorders(events[i], events[j], events[k], collate);
      assert !WeaklyOrdered(events[i], events[k], events[j], collate);
    }
  }

  /** In particular, events that all carry a turn sequence, or all lack one, are always ordered. */
  lemma UniformEventsAreOrdered(events: seq<Event>, collate: EventId -> int)
    requires (forall i :: 0 <= i < |events| ==> events[i].turnSequence.Some?)
               || (forall i :: 0 <= i < |events| ==> events[i].turnSequence.None?)
    ensures StrictWeakOrder(events, collate)
  {
    forall i, j, k | 0 <= i < |events| && 0 <= j < |events| && 0 <= k < |events|
      ensures !Clash(events[i], events[j], events[k], collate)
    {
      assert events[i].turnSequence.Some? <==> events[k].turnSequence.Some?;
    }
    ComparatorOrdersIff(events, collate);
  }

  /** No later event of the list belongs before an earlier one. */
  ghost predicate InOrder(events: seq<Event>, collate: EventId -> int) {
    forall i, j :: 0 <= i < j < |events| ==> !Before(events[j], events[i], collate)
  }

  /**
   A list in the comparator's order reads newest first; at one moment by turn sequence where both
   events have one; and where that does not decide, the user's message comes first, then calls,
   results, assistant messages, and everything else.
   */
  lemma OrderReads(events: seq<Event>, collate: EventId -> int, i: nat, j: nat)
    requires InOrder(events, collate) && i < j < |events|
    ensures var a, b := events[i], events[j];
            && a.timestamp >= b.timestamp
            && (a.timestamp == b.timestamp && a.turnSequence.Some? && b.turnSequence.Some? ==>
                  a.turnSequence.value <= b.turnSequence.value)
            && (a.timestamp == b.timestamp
                  && (a.turnSequence.None? || b.turnSequence.None? || a.turnSequence == b.turnSequence) ==>
                  && (b.kind == UserMessage ==> a.kind == UserMessage)
                  && (b.kind == ToolCall ==> a.kind in {UserMessage, ToolCall})
                  && (b.kind == ToolResult ==> a.kind in {UserMessage, ToolCall, ToolResult})
                  && (b.kind == AssistantMessage ==> a.kind in {UserMessage, ToolCall, ToolResult, AssistantMessage})
                  && (a.kind == b.kind ==> collate(a.id) <= collate(b.id)))
  {
  }

  /** A status message, an approval message and an artifact of one moment. */
  function MixedTurn(): Turn {
    Turn("", None, 0, [Message(StatusRole, "", None, None, None, None, None),
                       Message(ApprovalRole, "", None, None, None, None, None)],
         [], [], [""])
  }

  function MixedEvents(): seq<Event> {
    [Event(Indexed(SystemStatus, 0), SystemStatus, 0, "", None, "", Some(0)),
     Event(Indexed(ApprovalDecision, 1), ApprovalDecision, 0, "", None, "", Some(1)),
     Event(Indexed(ArtifactCreated, 0), ArtifactCreated, 0, "", None, "", None)]
  }

  lemma MixedTurnEvents()
    ensures TurnEvents(MixedTurn()) == MixedEvents()
  {
    var turn := MixedTurn();
    MixedTurnMessages();
    assert Orphans(turn, EmittedUpTo(turn, 2)) == [];
    assert Listed(turn, ArtifactCreated, turn.artifacts) == [MixedEvents()[2]];
    assert Listed(turn, ApprovalRequest, turn.approvals) == [] && Opening(turn) == [];
  }

  lemma MixedTurnMessages()
    ensures !Legacy(MixedTurn())
    ensures MessagesUpTo(MixedTurn(), 2) == [MixedEvents()[0], MixedEvents()[1]]
  {
    var turn := MixedTurn();
    assert turn.messages[..1] == [turn.messages[0]] && turn.messages[..1][..0] == [];
    assert ToolMessages(turn.messages[..1]) == 0;
    assert ToolMessages(turn.messages) == 0 && !Legacy(turn);
    assert MessagesUpTo(turn, 0) == [];
    assert MessagesUpTo(turn, 1) == [MixedEvents()[0]];
    assert MessagesUpTo(turn, 2) == MessagesUpTo(turn, 1) + [MixedEvents()[1]];
  }

  /** The comparator runs in a circle on three events. */
  ghost predicate Cycles(events: seq<Event>, collate: EventId -> int) {
    && |events| == 3
    && Before(events[0], events[1], collate) && Before(events[1], events[2], collate)
        && Before(events[2], events[0], collate)
    && !StrictWeakOrder(events, collate)
  }

  lemma MixedEventsCycle(collate: EventId -> int)
    requires collate(Indexed(ApprovalDecision, 1)) < collate(Indexed(ArtifactCreated,
                                                                     0)) < collate(Indexed(SystemStatus, 0))
    ensures Cycles(MixedEvents(), collate)
  {
    var events := MixedEvents();
    assert Clash(events[0], events[1], events[2], collate);
    ComparatorOrdersIff(events, collate);
  }

  /**
   The events of that turn run in a circle: status before approval by number,
   approval before artifact and artifact before status by id.
   */
  lemma ComparatorCycles(collate: EventId -> int)
    requires collate(Indexed(ApprovalDecision, 1)) < collate(Indexed(ArtifactCreated,
                                                                     0)) < collate(Indexed(SystemStatus, 0))
    ensures Cycles(TurnEvents(MixedTurn()), collate)
  {
    MixedTurnEvents();
    MixedEventsCycle(collate);
  }
}
