/**
 The timeline broadcaster (src/api/timeline-broadcaster.ts): live connections by
 id, an index of connection ids by session, and catch-up after a reconnect.

 Connection states are shared objects in the source: a handle keeps its state
 after the broadcaster forgot it. They are held here in `states`, by connection
 id; `connections` is the set of ids the broadcaster still lists. `written` is
 everything ever passed to the connection's write function.
 */
module Broadcaster {
  import opened Common
  import opened Sorting

  datatype Event = Event(eventId: string, timestamp: int, payload: string)

  datatype Conn = Conn(sessionId: string, active: bool, written: seq<string>)

  /** Deliver one piece of data; `accepted` is what the write function returned. */
  function Write(c: Conn, data: string, accepted: bool): Conn {
    if !c.active then c else c.(written := c.written + [data], active := accepted)
  }

  /** A write whose refusal is ignored (status and token messages). */
  function WriteAnyway(c: Conn, data: string): Conn {
    if !c.active then c else c.(written := c.written + [data])
  }

  /** What every operation keeps of every connection: its session, what was written, and its silence once inactive. */
  ghost predicate Evolves(states: map<string, Conn>, states': map<string, Conn>) {
    forall id :: id in states ==>
      && id in states' && states'[id].sessionId == states[id].sessionId
      && states[id].written <= states'[id].written
      && (!states[id].active ==> states'[id] == states[id])
  }

  lemma EvolvesTwice(a: map<string, Conn>, b: map<string, Conn>, c: map<string, Conn>)
    requires Evolves(a, b) && Evolves(b, c)
    ensures Evolves(a, c)
  {
    forall id | id in a
      ensures id in c && c[id].sessionId == a[id].sessionId && a[id].written <= c[id].written
      ensures (!a[id].active ==> c[id] == a[id])
    {
      assert id in b;
    }
  }

  // ---------------------------------------------------------------------- catch-up

  function ByTime(e: Event): real {
    e.timestamp as real
  }

  /** `findIndex`, or -1. */
  function IndexOf(events: seq<Event>, id: string): (i: int)
    ensures -1 <= i < |events|
    ensures i >= 0 ==> events[i].eventId == id && forall k :: 0 <= k < i ==> events[k].eventId != id
    ensures i == -1 ==> forall k :: 0 <= k < |events| ==> events[k].eventId != id
  {
    if events == [] then -1
    else if events[0].eventId == id then 0
    else
      var rest := IndexOf(events[1..], id);
      if rest == -1 then -1 else rest + 1
  }

  function Ascending(page: seq<Event>): seq<Event> {
    StableSort(page, ByTime)
  }

  /** Everything after the cursor, or everything when the cursor does not occur. */
  function Rest(events: seq<Event>, cursor: string): seq<Event> {
    events[IndexOf(events, cursor) + 1..]
  }

  /** What the client has seen: everything up to and including the cursor. */
  function Seen(events: seq<Event>, cursor: string): seq<Event> {
    events[..IndexOf(events, cursor) + 1]
  }

  /** What `sendCatchUpEvents` sends after a cursor. */
  function After(page: seq<Event>, cursor: string): seq<Event> {
    Rest(Ascending(page), cursor)
  }

  function Datas(events: seq<Event>): (r: seq<string>)
    ensures |r| == |events|
  {
    seq(|events|, i requires 0 <= i < |events| => events[i].payload)
  }

  /** The ascending page is the page, once each, in time order with ties in the page's order. */
  lemma AscendingIsThePage(page: seq<Event>)
    ensures multiset(Ascending(page)) == multiset(page) && |Ascending(page)| == |page|
    ensures forall i, j :: 0 <= i < j < |page| ==> Ascending(page)[i].timestamp <= Ascending(page)[j].timestamp
    ensures forall t :: AtMoment(Ascending(page), t) == AtMoment(page, t)
    ensures forall e :: e in Ascending(page) <==> e in page
  {
    StableSortCorrect(page, ByTime);
    assert |multiset(Ascending(page))| == |multiset(page)|;
    forall i, j | 0 <= i < j < |page|
      ensures Ascending(page)[i].timestamp <= Ascending(page)[j].timestamp
    {
      assert ByTime(Ascending(page)[i]) <= ByTime(Ascending(page)[j]);
    }
    forall t
      ensures AtMoment(Ascending(page), t) == AtMoment(page, t)
    {
      TiesAtMoment(page, t);
      TiesAtMoment(Ascending(page), t);
    }
  }

  /** The events of one moment, in order. */
  function AtMoment(events: seq<Event>, t: int): seq<Event> {
    if events == [] then []
    else
      var last := events[|events| - 1];
      AtMoment(events[..|events| - 1], t) + (if last.timestamp == t then [last] else [])
  }

  lemma {:induction false} TiesAtMoment(events: seq<Event>, t: int)
    ensures Ties(events, ByTime, t as real) == AtMoment(events, t)
  {
    if events != [] {
      TiesAtMoment(events[..|events| - 1], t);
    }
  }

  /** A cursor splits the list: it ends what was seen, and what comes after completes the list. */
  lemma CursorSplits(events: seq<Event>, k: nat)
    requires k < |events|
    ensures var id := events[k].eventId;
            && Seen(events, id) + Rest(events, id) == events
            && Seen(events, id) != [] && Seen(events, id)[|Seen(events, id)| - 1].eventId == id
            && forall i :: 0 <= i < |Seen(events, id)| - 1 ==> Seen(events, id)[i].eventId != id
  {
    var id := events[k].eventId;
    assert IndexOf(events, id) >= 0;
    forall i | 0 <= i < |Seen(events, id)| - 1
      ensures Seen(events, id)[i].eventId != id
    {
      assert Seen(events, id)[i] == events[i];
    }
  }

  lemma DatasConcat(a: seq<Event>, b: seq<Event>)
    ensures Datas(a + b) == Datas(a) + Datas(b)
  {
  }

  /** The page holds an event with the cursor's id. */
  ghost predicate OnPage(page: seq<Event>, cursor: string) {
    exists e :: e in page && e.eventId == cursor
  }

  /**
   What the client had seen and what was written to it are a part of the ascending
   page; all of it if nothing was refused.
   */
  ghost predicate Completes(page: seq<Event>, cursor: string, written: seq<string>, all: bool) {
    var ascending := Ascending(page);
    && Seen(ascending, cursor) != [] && Seen(ascending, cursor)[|Seen(ascending, cursor)| - 1].eventId == cursor
    && Datas(Seen(ascending, cursor)) + written <= Datas(ascending)
    && (all ==> Datas(Seen(ascending, cursor)) + written == Datas(ascending))
  }

  /** The oldest event on the page with the cursor's id. */
  ghost predicate IsCursor(page: seq<Event>, cursor: string, c: Event) {
    c in page && c.eventId == cursor && forall e :: e in page && e.eventId == cursor ==> c.timestamp <= e.timestamp
  }

  /** The payload is that of an event on the page that is not older than `t`. */
  ghost predicate IsRecent(page: seq<Event>, t: int, payload: string) {
    exists e :: e in page && e.payload == payload && e.timestamp >= t
  }

  /** Nothing older than the cursor was written, and everything newer if nothing was refused. */
  ghost predicate CatchesUp(page: seq<Event>, cursor: string, written: seq<string>, all: bool) {
    exists c :: IsCursor(page, cursor, c)
      && (forall k :: 0 <= k < |written| ==> IsRecent(page, c.timestamp, written[k]))
      && (all ==> forall e :: e in page && e.timestamp > c.timestamp ==> e.payload in written)
  }

  /** In an ascending list, what comes after a place is no older, and what is newer comes after it. */
  lemma PlaceDividesTime(ascending: seq<Event>, i: nat, after: seq<Event>)
    requires i < |ascending| && after == ascending[i + 1..]
    requires forall k, m :: 0 <= k < m < |ascending| ==> ascending[k].timestamp <= ascending[m].timestamp
    ensures forall k :: 0 <= k < |after| ==> after[k] in ascending && after[k].timestamp >= ascending[i].timestamp
    ensures forall e :: e in ascending && e.timestamp > ascending[i].timestamp ==> e in after
  {
    forall e | e in ascending && e.timestamp > ascending[i].timestamp
      ensures e in after
    {
      var k :| 0 <= k < |ascending| && ascending[k] == e;
      assert after[k - i - 1] == e;
    }
  }

  /** In an ascending list, the first event with an id is the oldest. */
  lemma FirstIsOldest(ascending: seq<Event>, i: nat)
    requires i < |ascending| && forall k :: 0 <= k < i ==> ascending[k].eventId != ascending[i].eventId
    requires forall k, m :: 0 <= k < m < |ascending| ==> ascending[k].timestamp <= ascending[m].timestamp
    ensures forall e :: e in ascending && e.eventId == ascending[i].eventId ==> ascending[i].timestamp <= e.timestamp
  {
  }

  lemma CursorDividesTime(page: seq<Event>, cursor: string) returns (c: Event)
    requires OnPage(page, cursor)
    ensures IsCursor(page, cursor, c)
    ensures forall k :: 0 <= k < |After(page, cursor)| ==>
              After(page, cursor)[k] in page && After(page, cursor)[k].timestamp >= c.timestamp
    ensures forall e :: e in page && e.timestamp > c.timestamp ==> e in After(page, cursor)
  {
    AscendingIsThePage(page);
    CursorSplitsPage(page, cursor);
    var ascending, i := Ascending(page), IndexOf(Ascending(page), cursor);
    c := ascending[i];
    assert c in ascending;
    FirstIsOldest(ascending, i);
    PlaceDividesTime(ascending, i, After(page, cursor));
  }

  /** With the cursor on the page, catch-up writes what is newer and nothing that is older. */
  lemma CatchUpIsRecent(page: seq<Event>, cursor: string, written: seq<string>, all: bool)
    requires OnPage(page, cursor) && written <= Datas(After(page, cursor))
    requires all ==> written == Datas(After(page, cursor))
    ensures CatchesUp(page, cursor, written, all)
  {
    var c := CursorDividesTime(page, cursor);
    var after := After(page, cursor);
    forall k | 0 <= k < |written|
      ensures IsRecent(page, c.timestamp, written[k])
    {
      assert written[k] == Datas(after)[k] == after[k].payload;
    }
    if all {
      forall e | e in page && e.timestamp > c.timestamp
        ensures e.payload in written
      {
        var k :| 0 <= k < |after| && after[k] == e;
        assert written[k] == e.payload;
      }
    }
  }

  /** A cursor that is not on the page leaves all of it to be sent. */
  lemma WithoutCursor(page: seq<Event>, cursor: string)
    requires !OnPage(page, cursor)
    ensures After(page, cursor) == Ascending(page)
  {
    AscendingIsThePage(page);
    assert forall e :: e in Ascending(page) ==> e.eventId != cursor;
  }

  /** With the cursor on the page, catch-up completes what the client has seen. */
  lemma CatchUpCompletesThePage(page: seq<Event>, cursor: string, written: seq<string>, all: bool)
    requires OnPage(page, cursor) && written <= Datas(After(page, cursor))
    requires (all ==> written == Datas(After(page, cursor)))
    ensures Completes(page, cursor, written, all)
  {
    CursorSplitsPage(page, cursor);
    DatasConcat(Seen(Ascending(page), cursor), After(page, cursor));
  }

  lemma CursorSplitsPage(page: seq<Event>, cursor: string)
    requires OnPage(page, cursor)
    ensures var ascending := Ascending(page);
            && Seen(ascending, cursor) + After(page, cursor) == ascending
            && Seen(ascending, cursor) != [] && Seen(ascending, cursor)[|Seen(ascending, cursor)| - 1].eventId == cursor
  {
    AscendingIsThePage(page);
    var e :| e in page && e.eventId == cursor;
    assert e in Ascending(page);
    var k :| 0 <= k < |Ascending(page)| && Ascending(page)[k] == e;
    CursorSplits(Ascending(page), k);
  }

  class TimelineBroadcaster {
    var states: map<string, Conn>
    var connections: set<string>
    var sessionConnections: map<string, set<string>>

    /** The connection map and the per-session sets describe the same relation. */
    ghost predicate Valid()
      reads this
    {
      && connections <= states.Keys
      && (forall id :: id in connections ==>
            states[id].sessionId in sessionConnections && id in sessionConnections[states[id].sessionId])
      && (forall s, id :: s in sessionConnections && id in sessionConnections[s] ==>
          id in connections && states[id].sessionId == s)
    }

    constructor ()
      ensures Valid() && states == map[] && connections == {}
    {
      states, connections, sessionConnections := map[], {}, map[];
    }

    /** The listed connections of a session. */
    ghost function Of(session: string): set<string>
      reads this
    {
      set id | id in connections && id in states && states[id].sessionId == session
    }

    /** Write some data to every active connection of a session. */
    ghost predicate Delivered(before: map<string, Conn>, session: string, data: string, accepts: string -> bool)
      reads this
    {
      && states.Keys == before.Keys
      && forall id :: id in states ==>
           states[id] == if id in connections && before[id].sessionId == session
                 && before[id].active
               then Conn(session, accepts(id), before[id].written + [data]) else before[id]
    }

    /** The catch-up went out in order, all of it or up to and including the first refused write. */
    ghost predicate CaughtUp(id: string, events: seq<Event>, accepts: nat -> bool)
      requires id in states
      reads this
    {
      var c := states[id];
      && c.written <= Datas(events)
      && (c.active ==> c.written == Datas(events) && forall i: nat :: i < |events| ==> accepts(i))
      && (!c.active ==>
          c.written != [] && !accepts(|c.written| - 1) && forall i: nat :: i < |c.written| - 1 ==> accepts(i))
    }

    /** The entries a new connection gets in both maps. */
    method Register(id: string, session: string)
      requires Valid() && id !in states
      modifies this
      ensures Valid() && connections == old(connections) + {id}
      ensures states == old(states)[id := Conn(session, true, [])]
    {
      states := states[id := Conn(session, true, [])];
      connections := connections + {id};
      var ids := if session in sessionConnections then sessionConnections[session] else {};
      sessionConnections := sessionConnections[session := ids + {id}];
    }

    /** `subscribe`: a new active connection, caught up if a cursor is given. */
    method Subscribe(id: string, session: string, cursor: string, page: seq<Event>, accepts: nat -> bool)
      requires Valid() && id !in states
      modifies this
      ensures Valid() && Evolves(old(states), states)
      ensures connections == old(connections) + {id} && states.Keys == old(states).Keys + {id}
      ensures forall other :: other in old(states) ==> states[other] == old(states)[other]
      ensures states[id].sessionId == session
      ensures cursor == "" ==> states[id] == Conn(session, true, [])
      ensures cursor != "" ==> CaughtUp(id, After(page, cursor), accepts)
      ensures cursor != "" && OnPage(page, cursor) ==>
                && Completes(page, cursor, states[id].written, states[id].active)
                && CatchesUp(page, cursor, states[id].written, states[id].active)
      ensures cursor != "" && !OnPage(page, cursor) ==> CaughtUp(id, Ascending(page), accepts)
    {
      Register(id, session);
      if cursor != "" {
        CatchUp(id, cursor, page, accepts);
      }
    }

    /** `sendCatchUpEvents` for a new connection. */
    method CatchUp(id: string, cursor: string, page: seq<Event>, accepts: nat -> bool)
      requires Valid() && id in states && states[id].active && states[id].written == []
      modifies this`states
      ensures Valid()
      ensures states.Keys == old(states).Keys && states[id].sessionId == old(states)[id].sessionId
      ensures forall other :: other in states && other != id ==> states[other] == old(states)[other]
      ensures CaughtUp(id, After(page, cursor), accepts)
      ensures OnPage(page, cursor) ==>
                && Completes(page, cursor, states[id].written, states[id].active)
                && CatchesUp(page, cursor, states[id].written, states[id].active)
      ensures !OnPage(page, cursor) ==> CaughtUp(id, Ascending(page), accepts)
    {
      SendCatchUpEvents(id, After(page, cursor), accepts);
      if OnPage(page, cursor) {
        CatchUpCompletesThePage(page, cursor, states[id].written, states[id].active);
        CatchUpIsRecent(page, cursor, states[id].written, states[id].active);
      } else {
        WithoutCursor(page, cursor);
      }
    }

    /** The loop of `sendCatchUpEvents`: in order, until a write fails. */
    method SendCatchUpEvents(id: string, events: seq<Event>, accepts: nat -> bool)
      requires Valid() && id in states && states[id].active && states[id].written == []
      modifies this`states
      ensures Valid()
      ensures states.Keys == old(states).Keys && states[id].sessionId == old(states)[id].sessionId
      ensures forall other :: other in states && other != id ==> states[other] == old(states)[other]
      ensures CaughtUp(id, events, accepts)
    {
      var c := states[id];
      for i := 0 to |events|
        invariant c.sessionId == old(states)[id].sessionId
        invariant c.written <= Datas(events)
        invariant c.active ==> c.written == Datas(events)[..i] && forall k: nat :: k < i ==> accepts(k)
        invariant !c.active ==>
                    c.written != [] && !accepts(|c.written| - 1) && forall k: nat :: k < |c.written| - 1 ==> accepts(k)
      {
        c := Write(c, events[i].payload, accepts(i));
      }
      states := states[id := c];
    }

    /** `broadcast`. */
    method Broadcast(session: string, event: Event, accepts: string -> bool)
      requires Valid()
      modifies this`states
      ensures Valid() && Evolves(old(states), states)
      ensures Delivered(old(states), session, event.payload, accepts)
    {
      if session !in sessionConnections {
        return;
      }
      var todo := sessionConnections[session];
      while todo != {}
        invariant todo <= sessionConnections[session]
        invariant states.Keys == old(states).Keys
        invariant forall id :: id in states ==>
          states[id] == if id in sessionConnections[session] && id !in todo
              then Write(old(states)[id], event.payload, accepts(id)) else old(states)[id]
        decreases |todo|
      {
        var id :| id in todo;
        todo := todo - {id};
        states := states[id := Write(states[id], event.payload, accepts(id))];
      }
    }

    /** `broadcastProcessingStatus` and `broadcastTokenStream`: a refused write is ignored. */
    method BroadcastTransient(session: string, data: string)
      requires Valid()
      modifies this`states
      ensures Valid() && Evolves(old(states), states) && states.Keys == old(states).Keys
      ensures forall id :: id in states ==>
                states[id] == if id in connections && old(states)[id].sessionId == session && old(states)[id].active
                    then Conn(session, true, old(states)[id].written + [data]) else old(states)[id]
    {
      if session !in sessionConnections {
        return;
      }
      var todo := sessionConnections[session];
      while todo != {}
        invariant todo <= sessionConnections[session]
        invariant states.Keys == old(states).Keys
        invariant forall id :: id in states ==>
          states[id] == if id in sessionConnections[session] && id !in todo then WriteAnyway(old(states)[id], data)
              else old(states)[id]
        decreases |todo|
      {
        var id :| id in todo;
        todo := todo - {id};
        states := states[id := WriteAnyway(states[id], data)];
      }
    }

    /** `write` on a handle, listed or not. */
    method HandleWrite(id: string, data: string, accepted: bool)
      requires Valid()
      modifies this`states
      ensures Valid() && Evolves(old(states), states)
      ensures id in old(states) && old(states)[id].active ==>
                var c := old(states)[id]; states == old(states)[id := Conn(c.sessionId, accepted, c.written + [data])]
      ensures id in old(states) && !old(states)[id].active ==> states == old(states)
      ensures id !in old(states) ==> states == old(states)
    {
      if id in states {
        states := states[id := Write(states[id], data, accepted)];
      }
    }

    /** `close` on a handle. */
    method HandleClose(id: string)
      requires Valid()
      modifies this`states
      ensures Valid() && Evolves(old(states), states)
      ensures id in old(states) ==> states == old(states)[id := old(states)[id].(active := false)]
      ensures id !in old(states) ==> states == old(states)
    {
      if id in states {
        states := states[id := states[id].(active := false)];
      }
    }

    /** `getConnectionCount`: the number of active connections of the session. */
    method GetConnectionCount(session: string) returns (count: nat)
      requires Valid()
      ensures count == |set id | id in connections && states[id].sessionId == session && states[id].active|
    {
      count := 0;
      ghost var counted: set<string> := {};
      var todo := if session in sessionConnections then sessionConnections[session] else {};
      ghost var all := todo;
      while todo != {}
        invariant todo <= all
        invariant counted == set id | id in all && id !in todo && id in states && states[id].active
        invariant count == |counted|
        decreases |todo|
      {
        var id :| id in todo;
        todo := todo - {id};
        if states[id].active {
          count := count + 1;
          counted := counted + {id};
        }
      }
      assert counted == set id | id in connections && states[id].sessionId == session && states[id].active;
    }

    /** `closeSession`: every connection of the session goes silent and is forgotten. */
    method CloseSession(session: string)
      requires Valid()
      modifies this
      ensures Valid() && Evolves(old(states), states) && states.Keys == old(states).Keys
      ensures connections == old(connections) - old(Of(session))
      ensures forall id :: id in states ==>
                states[id] == if id in old(Of(session)) then old(states)[id].(active := false) else old(states)[id]
    {
      if session !in sessionConnections {
        return;
      }
      var ids := sessionConnections[session];
      assert ids == Of(session);
      var todo := ids;
      while todo != {}
        invariant todo <= ids
        invariant states.Keys == old(states).Keys && sessionConnections == old(sessionConnections)
        invariant connections == old(connections) - (ids - todo)
        invariant forall id :: id in states ==>
          states[id] == if id in ids && id !in todo then old(states)[id].(active := false) else old(states)[id]
        decreases |todo|
      {
        var id :| id in todo;
        todo := todo - {id};
        states := states[id := states[id].(active := false)];
        connections := connections - {id};
      }
      sessionConnections := sessionConnections - {session};
    }

    /** One step of `cleanup`. */
    method Forget(id: string)
      requires Valid() && id in connections
      modifies this`connections, this`sessionConnections
      ensures Valid() && connections == old(connections) - {id}
    {
      connections := connections - {id};
      var s := states[id].sessionId;
      var left := sessionConnections[s] - {id};
      sessionConnections := if left == {} then sessionConnections - {s} else sessionConnections[s := left];
    }

    /** `cleanup`: inactive connections are forgotten, empty sessions with them. */
    method Cleanup()
      requires Valid()
      modifies this`connections, this`sessionConnections
      ensures Valid()
      ensures connections == set id | id in old(connections) && states[id].active
    {
      var todo := connections;
      while todo != {}
        invariant Valid() && todo <= connections
        invariant connections == set id | id in old(connections) && (id in todo || states[id].active)
        decreases |todo|
      {
        var id :| id in todo;
        todo := todo - {id};
        if !states[id].active {
          Forget(id);
        }
      }
    }

    /** Any sequence of operations: the index stays a faithful picture and silenced connections stay silent. */
    method Perform(ops: seq<Op>)
      requires Valid()
      modifies this
      ensures Valid() && Evolves(old(states), states)
    {
      for i := 0 to |ops|
        invariant Valid() && Evolves(old(states), states)
      {
        ghost var before := states;
        match ops[i] {
          case SubscribeOp(id, session, cursor, page, accepts) =>
            if id !in states { Subscribe(id, session, cursor, page, accepts); }
          case BroadcastOp(session, event, accepts) => Broadcast(session, event, accepts);
          case TransientOp(session, data) => BroadcastTransient(session, data);
          case WriteOp(id, data, accepted) => HandleWrite(id, data, accepted);
          case CloseOp(id) => HandleClose(id);
          case CloseSessionOp(session) => CloseSession(session);
          case CleanupOp => Cleanup();
        }
        EvolvesTwice(old(states), before, states);
      }
    }
  }

  /** The operations of the broadcaster and of its handles, with what the write functions answered. */
  datatype Op =
    | SubscribeOp(id: string, session: string, cursor: string, page: seq<Event>, accepts: nat -> bool)
    | BroadcastOp(session: string, event: Event, acceptsFrom: string -> bool)
    | TransientOp(session: string, data: string)
    | WriteOp(id: string, data: string, accepted: bool)
    | CloseOp(id: string)
    | CloseSessionOp(session: string)
    | CleanupOp
}
