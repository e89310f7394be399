/**
 * The connection handlers of the socket server: joining rooms, and relaying each
 * Kanban event to the other members of the board's room. Rooms are named by plain
 * ids, so board ids and workspace ids share one namespace. Every fan-out is kept
 * as one delivery record: the room, the connections it reached, and the event.
 */
module SocketRelay {
  import opened Entities
  import opened Protocol

  type ConnId = nat

  datatype Delivery = Delivery(room: Id, recipients: set<ConnId>, event: ServerEvent)

  /** Room membership and everything delivered so far, in publish order. */
  datatype Hub = Hub(rooms: map<Id, set<ConnId>>, deliveries: seq<Delivery>)

  function Members(rooms: map<Id, set<ConnId>>, room: Id): set<ConnId>
  {
    if room in rooms then rooms[room] else {}
  }

  /** `socket.join(room)`: adds the connection to that room and to no other. */
  function Join(rooms: map<Id, set<ConnId>>, c: ConnId, room: Id): (r: map<Id, set<ConnId>>)
    ensures Members(r, room) == Members(rooms, room) + {c}
    ensures forall other :: other != room ==> Members(r, other) == Members(rooms, other)
  {
    rooms[room := Members(rooms, room) + {c}]
  }

  /** Connection termination: the connection leaves every room. */
  function LeaveAll(rooms: map<Id, set<ConnId>>, c: ConnId): (r: map<Id, set<ConnId>>)
    ensures forall room :: Members(r, room) == Members(rooms, room) - {c}
  {
    map room | room in rooms :: rooms[room] - {c}
  }

  /**
   * The room and outgoing event a relayed client event is re-emitted as; None for
   * the events that are not relayed (joins and disconnect).
   */
  function Outgoing(e: ClientEvent): Option<(Id, ServerEvent)>
  {
    match e
    case MoveCard(boardId, newList, oldList) => Some((boardId, CardMoved(newList, oldList)))
    case AddList(boardId, list) => Some((boardId, ListAdded(list)))
    case AddCard(boardId, card) => Some((boardId, CardAdded(card)))
    case DeleteList(boardId, listId) => Some((boardId, ListDeleted(listId)))
    case _ => None
  }

  /** One handled client event. */
  function Step(h: Hub, c: ConnId, e: ClientEvent): (r: Hub)
    ensures |h.deliveries| <= |r.deliveries| <= |h.deliveries| + 1
    ensures r.deliveries[..|h.deliveries|] == h.deliveries
    ensures forall k :: |h.deliveries| <= k < |r.deliveries| ==>
      c !in r.deliveries[k].recipients && r.deliveries[k].recipients <= Members(h.rooms, r.deliveries[k].room)
  {
    match e
    case JoinWorkspace(workspaceId) => h.(rooms := Join(h.rooms, c, workspaceId))
    case JoinBoard(boardId) => h.(rooms := Join(h.rooms, c, boardId))
    case Disconnect => h.(rooms := LeaveAll(h.rooms, c))
    case _ =>
      var (room, out) := Outgoing(e).value;
      h.(deliveries := h.deliveries + [Delivery(room, Members(h.rooms, room) - {c}, out)])
  }

  /** A sequence of (connection, event) pairs handled in order. */
  function Run(h: Hub, trace: seq<(ConnId, ClientEvent)>): Hub
    decreases |trace|
  {
    if trace == [] then h else Run(Step(h, trace[0].0, trace[0].1), trace[1..])
  }

  /** The events a connection has received, in the order they were published. */
  function Inbox(ds: seq<Delivery>, c: ConnId): seq<ServerEvent>
  {
    if ds == [] then []
    else Inbox(ds[..|ds| - 1], c) + (if c in ds[|ds| - 1].recipients then [ds[|ds| - 1].event] else [])
  }

  predicate IsJoin(e: ClientEvent, room: Id)
  {
    e == JoinWorkspace(room) || e == JoinBoard(room)
  }

  /**
   * A relayed event reaches exactly the room's members other than the sender, under
   * its fixed outgoing name and payload; the rooms are unchanged, and the sender need
   * not be a member.
   */
  lemma RelayReachesOthersInRoom(h: Hub, c: ConnId, e: ClientEvent)
    requires Outgoing(e).Some?
    ensures var (room, out) := Outgoing(e).value;
      Step(h, c, e) == Hub(h.rooms, h.deliveries + [Delivery(room, Members(h.rooms, room) - {c}, out)])
  {
  }

  /** A join adds the connection to the named room, changes no other room and delivers nothing. */
  lemma JoinAddsMember(h: Hub, c: ConnId, e: ClientEvent, room: Id)
    requires IsJoin(e, room)
    ensures Members(Step(h, c, e).rooms, room) == Members(h.rooms, room) + {c}
    ensures forall other :: other != room ==> Members(Step(h, c, e).rooms, other) == Members(h.rooms, other)
    ensures Step(h, c, e).deliveries == h.deliveries
  {
  }

  /** Joining twice is joining once. */
  lemma JoinIdempotent(h: Hub, c: ConnId, e: ClientEvent, room: Id)
    requires IsJoin(e, room)
    ensures Step(Step(h, c, e), c, e) == Step(h, c, e)
  {
    assert Join(Join(h.rooms, c, room), c, room) == Join(h.rooms, c, room);
  }

  /**
   * Board and workspace ids share one room namespace: a connection that joined a
   * workspace receives the board events relayed to a board with the same id.
   */
  lemma SharedNamespace(h: Hub, c: ConnId, sender: ConnId, id: Id, newList: ListView, oldList: ListView)
    requires c != sender
    ensures var h' := Run(h, [(c, JoinWorkspace(id)), (sender, MoveCard(id, newList, oldList))]);
      Inbox(h'.deliveries, c) == Inbox(h.deliveries, c) + [CardMoved(newList, oldList)]
  {
    var t: seq<(ConnId, ClientEvent)> := [(c, JoinWorkspace(id)), (sender, MoveCard(id, newList, oldList))];
    var h1 := Step(h, c, JoinWorkspace(id));
    var h2 := Step(h1, sender, MoveCard(id, newList, oldList));
    assert t[1..] == [(sender, MoveCard(id, newList, oldList))];
    assert Run(h1, t[1..]) == Run(h2, t[1..][1..]);
    assert t[1..][1..] == [];
    assert Run(h, t) == h2;
    assert h2.deliveries[..|h2.deliveries| - 1] == h.deliveries;
  }

  /** The sender of a relay never receives its own event. */
  lemma SenderExcluded(h: Hub, c: ConnId, e: ClientEvent)
    ensures Inbox(Step(h, c, e).deliveries, c) == Inbox(h.deliveries, c)
  {
    var r := Step(h, c, e);
    if |r.deliveries| > |h.deliveries| {
      assert r.deliveries[..|r.deliveries| - 1] == h.deliveries;
    }
  }

  /**
   * A connection that was not in a room and never joined it receives nothing that
   * is published to that room, whatever else happens on any connection.
   */
  lemma {:induction false} NeverJoinedReceivesNothing(h: Hub, trace: seq<(ConnId, ClientEvent)>, c: ConnId, room: Id)
    requires c !in Members(h.rooms, room)
    requires forall k :: 0 <= k < |trace| ==> !(trace[k].0 == c && IsJoin(trace[k].1, room))
    ensures c !in Members(Run(h, trace).rooms, room)
    ensures var r := Run(h, trace);
      |h.deliveries| <= |r.deliveries| && r.deliveries[..|h.deliveries|] == h.deliveries
    ensures var r := Run(h, trace);
      forall k :: |h.deliveries| <= k < |r.deliveries| && r.deliveries[k].room == room ==>
        c !in r.deliveries[k].recipients
    decreases |trace|
  {
    if trace != [] {
      var (s, e) := trace[0];
      var h1 := Step(h, s, e);
      assert c !in Members(h1.rooms, room) by {
        match e
        case JoinWorkspace(w) => assert !(s == c && IsJoin(e, room));
        case JoinBoard(b) => assert !(s == c && IsJoin(e, room));
        case _ =>
      }
      assert forall k :: 0 <= k < |trace[1..]| ==> trace[1..][k] == trace[k + 1];
      NeverJoinedReceivesNothing(h1, trace[1..], c, room);
      var r := Run(h1, trace[1..]);
      assert r == Run(h, trace);
      assert r.deliveries[..|h1.deliveries|] == h1.deliveries;
      assert r.deliveries[..|h.deliveries|] == h.deliveries by {
        assert h1.deliveries[..|h.deliveries|] == h.deliveries;
      }
      forall k | |h.deliveries| <= k < |r.deliveries| && r.deliveries[k].room == room
        ensures c !in r.deliveries[k].recipients
      {
        if k < |h1.deliveries| {
          assert r.deliveries[k] == h1.deliveries[k];
        }
      }
    }
  }

  /** Termination takes the connection out of every room and delivers nothing. */
  lemma DisconnectLeavesEveryRoom(h: Hub, c: ConnId, room: Id)
    ensures c !in Members(Step(h, c, Disconnect).rooms, room)
    ensures Step(h, c, Disconnect).deliveries == h.deliveries
  {
  }

  /** The socket server's connection-level state, updated in place by the handlers. */
  class SocketServer {
    var rooms: map<Id, set<ConnId>>
    var deliveries: seq<Delivery>

    function State(): Hub
      reads this
    {
      Hub(rooms, deliveries)
    }

    constructor ()
      ensures State() == Hub(map[], [])
    {
      rooms, deliveries := map[], [];
    }

    /** The handler registered for `e`'s event name, run for connection `c`. */
    method On(c: ConnId, e: ClientEvent)
      modifies this
      ensures State() == Step(old(State()), c, e)
    {
      match e {
        case JoinWorkspace(workspaceId) =>
          rooms := Join(rooms, c, workspaceId);
        case JoinBoard(boardId) =>
          rooms := Join(rooms, c, boardId);
        case MoveCard(boardId, newList, oldList) =>
          ToRoomExcept(c, boardId, CardMoved(newList, oldList));
        case AddList(boardId, list) =>
          ToRoomExcept(c, boardId, ListAdded(list));
        case AddCard(boardId, card) =>
          ToRoomExcept(c, boardId, CardAdded(card));
        case DeleteList(boardId, listId) =>
          ToRoomExcept(c, boardId, ListDeleted(listId));
        case Disconnect =>
          rooms := LeaveAll(rooms, c);
      }
    }

    /** `socket.to(room).emit(event)`: every member of the room except the sender. */
    method ToRoomExcept(sender: ConnId, room: Id, event: ServerEvent)
      modifies this`deliveries
      ensures deliveries == old(deliveries) + [Delivery(room, Members(rooms, room) - {sender}, event)]
    {
      deliveries := deliveries + [Delivery(room, Members(rooms, room) - {sender}, event)];
    }

    /** `io.to(room).emit(event)`: every member of the room. */
    method ToRoom(room: Id, event: ServerEvent)
      modifies this`deliveries
      ensures deliveries == old(deliveries) + [Delivery(room, Members(rooms, room), event)]
    {
      deliveries := deliveries + [Delivery(room, Members(rooms, room), event)];
    }
  }
}
