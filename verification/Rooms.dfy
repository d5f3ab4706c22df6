/** The WebSocket room index: for every event the sockets subscribed to it, for every socket the events it
    is subscribed to, both changed in place by every command. */
module Rooms {
  import opened Domain

  datatype SocketState = SocketState(isAlive: bool, eventIds: seq<Id>)

  datatype Message =
    | InvalidCommand
    | SubscriptionConfirmed(eventId: Id)
    | UnsubscriptionConfirmed(eventId: Id)
    | SeatEvent(eventId: Id, body: Id)
    | Ping

  datatype Sent = Sent(socket: Id, message: Message)

  // ---- Insertion-ordered sets ----

  ghost predicate NoDuplicates(xs: seq<Id>) {
    forall i, j :: 0 <= i < j < |xs| ==> xs[i] != xs[j]
  }

  function With(xs: seq<Id>, x: Id): seq<Id> {
    if x in xs then xs else xs + [x]
  }

  function Without(xs: seq<Id>, x: Id): (r: seq<Id>)
    ensures forall y :: y in r <==> y in xs && y != x
  {
    if xs == [] then []
    else if xs[0] == x then Without(xs[1..], x)
    else [xs[0]] + Without(xs[1..], x)
  }

  lemma {:induction false} WithoutUnique(xs: seq<Id>, x: Id)
    requires NoDuplicates(xs)
    ensures NoDuplicates(Without(xs, x))
    decreases |xs|
  {
    if xs != [] {
      WithoutUnique(xs[1..], x);
      assert xs[0] !in xs[1..];
    }
  }

  function Only(xs: seq<Id>, keep: set<Id>): (r: seq<Id>)
    ensures forall y :: y in r <==> y in xs && y in keep
  {
    if xs == [] then []
    else Only(xs[..|xs| - 1], keep) + if xs[|xs| - 1] in keep then [xs[|xs| - 1]] else []
  }

  lemma {:induction false} OnlyUnique(xs: seq<Id>, keep: set<Id>)
    requires NoDuplicates(xs)
    ensures NoDuplicates(Only(xs, keep))
    decreases |xs|
  {
    if xs != [] {
      OnlyUnique(xs[..|xs| - 1], keep);
      assert xs[|xs| - 1] !in xs[..|xs| - 1];
    }
  }

  lemma {:induction false} WithoutMiddle(pre: seq<Id>, x: Id, post: seq<Id>)
    requires x !in pre && x !in post
    ensures Without(pre + [x] + post, x) == pre + post
    decreases |pre|
  {
    if pre == [] {
      assert pre + [x] + post == [x] + post;
      WithoutAbsent(post, x);
    } else {
      assert (pre + [x] + post)[1..] == pre[1..] + [x] + post;
      WithoutMiddle(pre[1..], x, post);
      assert pre + post == [pre[0]] + (pre[1..] + post);
    }
  }

  lemma {:induction false} WithoutAbsent(xs: seq<Id>, x: Id)
    requires x !in xs
    ensures Without(xs, x) == xs
    decreases |xs|
  {
    if xs != [] {
      WithoutAbsent(xs[1..], x);
      assert xs == [xs[0]] + xs[1..];
    }
  }

  // ---- Rooms as values ----

  predicate In(rooms: map<Id, seq<Id>>, socket: Id, eventId: Id) {
    eventId in rooms && socket in rooms[eventId]
  }

  function Members(rooms: map<Id, seq<Id>>): set<(Id, Id)> {
    set e, s | e in rooms && s in rooms[e] :: (s, e)
  }

  function RoomOf(rooms: map<Id, seq<Id>>, eventId: Id): seq<Id> {
    if eventId in rooms then rooms[eventId] else []
  }

  /** One socket leaves one room; an empty room is deleted. */
  function Leave(rooms: map<Id, seq<Id>>, eventId: Id, socket: Id): map<Id, seq<Id>> {
    if eventId !in rooms then rooms
    else if Without(rooms[eventId], socket) == [] then rooms - {eventId}
    else rooms[eventId := Without(rooms[eventId], socket)]
  }

  function LeaveAll(rooms: map<Id, seq<Id>>, eventIds: seq<Id>, socket: Id): map<Id, seq<Id>> {
    if eventIds == [] then rooms
    else Leave(LeaveAll(rooms, eventIds[..|eventIds| - 1], socket), eventIds[|eventIds| - 1], socket)
  }

  ghost predicate NoEmptyRoom(rooms: map<Id, seq<Id>>) {
    forall e :: e in rooms ==> rooms[e] != [] && NoDuplicates(rooms[e])
  }

  function RoomAfter(rooms: map<Id, seq<Id>>, eventIds: seq<Id>, socket: Id, eventId: Id): seq<Id> {
    if eventId in eventIds then Without(RoomOf(rooms, eventId), socket) else RoomOf(rooms, eventId)
  }

  lemma LeaveOne(rooms: map<Id, seq<Id>>, eventId: Id, socket: Id, e: Id)
    requires NoEmptyRoom(rooms)
    ensures RoomOf(Leave(rooms, eventId, socket), e) ==
            if e == eventId then Without(RoomOf(rooms, e), socket) else RoomOf(rooms, e)
  {
  }

  lemma LeaveKeepsNonEmpty(rooms: map<Id, seq<Id>>, eventId: Id, socket: Id)
    requires NoEmptyRoom(rooms)
    ensures NoEmptyRoom(Leave(rooms, eventId, socket))
  {
    WithoutUnique(RoomOf(rooms, eventId), socket);
  }

  lemma WithoutTwice(xs: seq<Id>, x: Id)
    ensures Without(Without(xs, x), x) == Without(xs, x)
  {
    WithoutAbsent(Without(xs, x), x);
  }

  lemma {:induction false} LeaveAllNonEmpty(rooms: map<Id, seq<Id>>, eventIds: seq<Id>, socket: Id)
    requires NoEmptyRoom(rooms)
    ensures NoEmptyRoom(LeaveAll(rooms, eventIds, socket))
    decreases |eventIds|
  {
    if eventIds != [] {
      var last := |eventIds| - 1;
      LeaveAllNonEmpty(rooms, eventIds[..last], socket);
      LeaveKeepsNonEmpty(LeaveAll(rooms, eventIds[..last], socket), eventIds[last], socket);
    }
  }

  lemma {:induction false} LeaveAllRoom(rooms: map<Id, seq<Id>>, eventIds: seq<Id>, socket: Id, e: Id)
    requires NoEmptyRoom(rooms)
    ensures RoomOf(LeaveAll(rooms, eventIds, socket), e) == RoomAfter(rooms, eventIds, socket, e)
    decreases |eventIds|
  {
    if eventIds != [] {
      var last := |eventIds| - 1;
      LeaveAllNonEmpty(rooms, eventIds[..last], socket);
      LeaveAllRoom(rooms, eventIds[..last], socket, e);
      LeaveOne(LeaveAll(rooms, eventIds[..last], socket), eventIds[last], socket, e);
      WithoutTwice(RoomOf(rooms, e), socket);
      assert eventIds == eventIds[..last] + [eventIds[last]];
      assert e in eventIds <==> e in eventIds[..last] || e == eventIds[last];
    }
  }

  lemma LeaveAllRooms(rooms: map<Id, seq<Id>>, eventIds: seq<Id>, socket: Id)
    requires NoEmptyRoom(rooms)
    ensures NoEmptyRoom(LeaveAll(rooms, eventIds, socket))
    ensures forall e :: RoomOf(LeaveAll(rooms, eventIds, socket), e) == RoomAfter(rooms, eventIds, socket, e)
  {
    LeaveAllNonEmpty(rooms, eventIds, socket);
    forall e ensures RoomOf(LeaveAll(rooms, eventIds, socket), e) == RoomAfter(rooms, eventIds, socket, e) {
      LeaveAllRoom(rooms, eventIds, socket, e);
    }
  }

  // ---- What the index means ----

  /** Who is subscribed to what, which sockets answered since the last heartbeat, which have connected,
      and which the server still tracks. */
  datatype Abstract = Abstract(members: set<(Id, Id)>, alive: set<Id>, known: set<Id>, clients: set<Id>)

  datatype Command =
    | Connect(socket: Id)
    | Pong(socket: Id)
    | BadFrame(socket: Id)
    | Subscribe(socket: Id, eventId: Id)
    | Unsubscribe(socket: Id, eventId: Id)
    | Close(socket: Id)
    | Heartbeat
    | Broadcast(eventId: Id, body: Id, open: set<Id>)
    | Shutdown

  function Purge(members: set<(Id, Id)>, gone: set<Id>): set<(Id, Id)> {
    set p | p in members && p.0 !in gone
  }

  function Apply(v: Abstract, c: Command): Abstract {
    match c
    case Connect(s) => v.(alive := v.alive + {s}, known := v.known + {s}, clients := v.clients + {s})
    case Pong(s) => if s in v.known then v.(alive := v.alive + {s}) else v
    case BadFrame(s) => v
    case Subscribe(s, e) => if s in v.known then v.(members := v.members + {(s, e)}) else v
    case Unsubscribe(s, e) => if s in v.known then v.(members := v.members - {(s, e)}) else v
    case Close(s) => v.(members := Purge(v.members, {s}), clients := v.clients - {s})
    case Heartbeat => v.(members := Purge(v.members, v.clients - v.alive), alive := v.alive - v.clients)
    case Broadcast(e, _, open) =>
      v.(members := Purge(v.members, set p | p in v.members && p.1 == e && p.0 !in open :: p.0))
    case Shutdown => v.(members := Purge(v.members, v.clients))
  }

  function Fold(v: Abstract, commands: seq<Command>): Abstract
    decreases |commands|
  {
    if commands == [] then v else Fold(Apply(v, commands[0]), commands[1..])
  }

  // ---- The server ----

  class Server {
    var rooms: map<Id, seq<Id>>
    var states: map<Id, SocketState>
    var clients: seq<Id>
    var sent: seq<Sent>

    /** The two indexes are exact inverses and no room is empty. */
    ghost predicate Valid()
      reads this
    {
      && NoEmptyRoom(rooms)
      && (forall s :: s in states ==> NoDuplicates(states[s].eventIds))
      && (forall s, e :: In(rooms, s, e) <==> s in states && e in states[s].eventIds)
      && NoDuplicates(clients) && forall s :: s in clients ==> s in states
    }

    ghost function View(): Abstract
      reads this
    {
      Abstract(Members(rooms), (set s | s in states && states[s].isAlive), states.Keys, (set s | s in clients))
    }

    constructor ()
      ensures Valid() && View() == Abstract({}, {}, {}, {}) && sent == []
    {
      rooms, states, clients, sent := map[], map[], [], [];
    }

    method Send(socket: Id, message: Message)
      modifies this`sent
      ensures sent == old(sent) + [Sent(socket, message)]
    {
      sent := sent + [Sent(socket, message)];
    }

    method RemoveFromRooms(socket: Id)
      requires Valid()
      modifies this`rooms, this`states
      ensures Valid()
      ensures Members(rooms) == Purge(old(Members(rooms)), {socket})
      ensures forall e :: RoomOf(rooms, e) == Without(RoomOf(old(rooms), e), socket)
      ensures states.Keys == old(states).Keys
      ensures forall s :: s in states ==> states[s].isAlive == old(states)[s].isAlive
    {
      if socket !in states {
        forall e ensures RoomOf(rooms, e) == Without(RoomOf(rooms, e), socket) {
          assert !In(rooms, socket, e);
          WithoutAbsent(RoomOf(rooms, e), socket);
        }
        forall p | p in Members(rooms) ensures p.0 != socket {
          assert In(rooms, p.0, p.1);
        }
        return;
      }
      var eventIds := states[socket].eventIds;
      ghost var before := rooms;
      for i := 0 to |eventIds|
        invariant rooms == LeaveAll(before, eventIds[..i], socket)
        invariant states == old(states)
      {
        assert eventIds[..i + 1][..i] == eventIds[..i];
        var eventId := eventIds[i];
        if eventId in rooms {
          var room := Without(rooms[eventId], socket);
          rooms := if room == [] then rooms - {eventId} else rooms[eventId := room];
        }
      }
      assert eventIds[..|eventIds|] == eventIds;
      states := states[socket := states[socket].(eventIds := [])];
      LeaveAllRooms(before, eventIds, socket);
      forall e ensures RoomOf(rooms, e) == Without(RoomOf(before, e), socket) {
        if e !in eventIds {
          assert !In(before, socket, e);
          WithoutAbsent(RoomOf(before, e), socket);
        }
      }
      AfterRemoval(before, rooms, socket);
    }

    method OnConnection(socket: Id)
      requires Valid() && socket !in states
      modifies this
      ensures Valid() && View() == Apply(old(View()), Connect(socket)) && sent == old(sent)
      ensures states == old(states)[socket := SocketState(true, [])] && clients == old(clients) + [socket]
      ensures rooms == old(rooms)
    {
      states := states[socket := SocketState(true, [])];
      clients := clients + [socket];
    }

    method OnPong(socket: Id)
      requires Valid()
      modifies this`states
      ensures Valid() && View() == Apply(old(View()), Pong(socket))
      ensures states.Keys == old(states).Keys && (socket in states ==> states[socket].isAlive)
      ensures forall s :: s in states && s != socket ==> states[s] == old(states)[s]
    {
      if socket in states {
        states := states[socket := states[socket].(isAlive := true)];
      }
    }

    method OnBadFrame(socket: Id)
      requires Valid()
      modifies this`sent
      ensures Valid() && View() == Apply(old(View()), BadFrame(socket))
      ensures sent == old(sent) + [Sent(socket, InvalidCommand)]
    {
      Send(socket, InvalidCommand);
    }

    method OnSubscribe(socket: Id, eventId: Id)
      requires Valid()
      modifies this
      ensures Valid() && View() == Apply(old(View()), Subscribe(socket, eventId))
      ensures sent == old(sent) + if socket in states then [Sent(socket, SubscriptionConfirmed(eventId))] else []
      ensures socket in states && socket !in RoomOf(old(rooms), eventId) ==>
        RoomOf(rooms, eventId) == RoomOf(old(rooms), eventId) + [socket]
    {
      if socket !in states {
        return;
      }
      var room := RoomOf(rooms, eventId);
      ghost var before := rooms;
      rooms := rooms[eventId := With(room, socket)];
      states := states[socket := states[socket].(eventIds := With(states[socket].eventIds, eventId))];
      Send(socket, SubscriptionConfirmed(eventId));
      forall s, e ensures In(rooms, s, e) <==> In(before, s, e) || (s == socket && e == eventId) {
      }
      SameMembers(rooms, Members(before) + {(socket, eventId)});
    }

    method OnUnsubscribe(socket: Id, eventId: Id)
      requires Valid()
      modifies this
      ensures Valid() && View() == Apply(old(View()), Unsubscribe(socket, eventId))
      ensures sent == old(sent) + if socket in states then [Sent(socket, UnsubscriptionConfirmed(eventId))] else []
    {
      if socket !in states {
        return;
      }
      LeaveDrops(rooms, eventId, socket);
      WithoutUnique(states[socket].eventIds, eventId);
      if eventId in rooms {
        var room := Without(rooms[eventId], socket);
        rooms := if room == [] then rooms - {eventId} else rooms[eventId := room];
      }
      states := states[socket := states[socket].(eventIds := Without(states[socket].eventIds, eventId))];
      Send(socket, UnsubscriptionConfirmed(eventId));
    }

    /** The close handler; the server library forgets the client at the same time. */
    method OnClose(socket: Id)
      requires Valid()
      modifies this
      ensures Valid() && View() == Apply(old(View()), Close(socket)) && sent == old(sent)
    {
      RemoveFromRooms(socket);
      WithoutUnique(clients, socket);
      clients := Without(clients, socket);
    }

    /** One visit of a broadcast: an open member gets the message, another leaves all its rooms; the
        members before and after it stay in place. */
    method VisitMember(eventId: Id, body: Id, socket: Id, open: bool, ghost pre: seq<Id>, ghost post: seq<Id>)
      requires Valid() && RoomOf(rooms, eventId) == pre + [socket] + post && socket !in pre && socket !in post
      modifies this`rooms, this`states, this`sent
      ensures Valid() && states.Keys == old(states).Keys
      ensures forall s :: s in states ==> states[s].isAlive == old(states)[s].isAlive
      ensures RoomOf(rooms, eventId) == pre + (if open then [socket] else []) + post
      ensures Members(rooms) == Purge(old(Members(rooms)), if open then {} else {socket})
      ensures sent == old(sent) + if open then [Sent(socket, SeatEvent(eventId, body))] else []
    {
      PurgeNothing(Members(rooms), {});
      if open {
        Send(socket, SeatEvent(eventId, body));
      } else {
        WithoutMiddle(pre, socket, post);
        RemoveFromRooms(socket);
      }
    }

    /** The first n of `members` have been visited by a broadcast that began with the members `all` and the
        sent messages `before`: the room holds the open ones of them and all the others. */
    ghost predicate Visited(n: nat, members: seq<Id>, eventId: Id, body: Id, open: set<Id>,
                            all: set<(Id, Id)>, before: seq<Sent>)
      reads this
      requires n <= |members|
    {
      && RoomOf(rooms, eventId) == Only(members[..n], open) + members[n..]
      && Members(rooms) == Purge(all, Closed(members[..n], open))
      && sent == before + SeatEvents(Only(members[..n], open), eventId, body)
    }

    /** One step of a broadcast; the cursor `i` stands behind the open members visited so far. */
    method VisitNext(i: nat, eventId: Id, body: Id, open: set<Id>,
                     ghost n: nat, ghost members: seq<Id>, ghost all: set<(Id, Id)>, ghost before: seq<Sent>)
      returns (next: nat)
      requires Valid() && NoDuplicates(members) && n < |members|
      requires Visited(n, members, eventId, body, open, all, before) && i == |Only(members[..n], open)|
      modifies this`rooms, this`states, this`sent
      ensures Valid() && states.Keys == old(states).Keys
      ensures forall s :: s in states ==> states[s].isAlive == old(states)[s].isAlive
      ensures Visited(n + 1, members, eventId, body, open, all, before) && next == |Only(members[..n + 1], open)|
    {
      var socket := RoomOf(rooms, eventId)[i];
      ghost var pre, post := Only(members[..n], open), members[n + 1..];
      assert members[n..] == [members[n]] + post && socket == members[n];
      PrefixGrows(members, n);
      OnlyPrefix(members, n, open);
      PurgePrefix(members, n, open, all);
      SeatEventsPrefix(members, n, open, eventId, body);
      VisitMember(eventId, body, socket, socket in open, pre, post);
      next := if socket in open then i + 1 else i;
    }

    /** The loop of a broadcast over a live room: the room's list shrinks under the cursor `i`. */
    method VisitRoom(eventId: Id, body: Id, open: set<Id>)
      requires Valid() && eventId in rooms
      modifies this`rooms, this`states, this`sent
      ensures Valid() && states.Keys == old(states).Keys
      ensures forall s :: s in states ==> states[s].isAlive == old(states)[s].isAlive
      ensures Members(rooms) == Purge(old(Members(rooms)), Closed(old(rooms)[eventId], open))
      ensures sent == old(sent) + SeatEvents(Only(old(rooms)[eventId], open), eventId, body)
    {
      ghost var members := rooms[eventId];
      var i := 0;
      ghost var n := 0;
      PurgeNothing(Members(rooms), {});
      while i < |RoomOf(rooms, eventId)|
        invariant Valid() && 0 <= n <= |members|
        invariant Visited(n, members, eventId, body, open, old(Members(rooms)), old(sent))
        invariant i == |Only(members[..n], open)|
        invariant states.Keys == old(states).Keys
        invariant forall s :: s in states ==> states[s].isAlive == old(states)[s].isAlive
        decreases |members| - n
      {
        i := VisitNext(i, eventId, body, open, n, members, old(Members(rooms)), old(sent));
        n := n + 1;
      }
      assert members[..n] == members;
    }

    /** A seat event goes once to every open member, in subscription order; members that are not open
        leave all their rooms while the loop runs over the very room they leave. */
    method OnSeatEvent(eventId: Id, body: Id, open: set<Id>)
      requires Valid()
      modifies this
      ensures Valid() && View() == Apply(old(View()), Broadcast(eventId, body, open))
      ensures var receivers := Only(RoomOf(old(rooms), eventId), open);
        && sent == old(sent) + SeatEvents(receivers, eventId, body)
        && NoDuplicates(receivers)
        && forall s :: s in receivers <==> (s, eventId) in old(View()).members && s in open
    {
      ClosedMembers(rooms, eventId, open);
      OnlyUnique(RoomOf(rooms, eventId), open);
      if eventId !in rooms {
        PurgeNothing(Members(rooms), {});
        return;
      }
      VisitRoom(eventId, body, open);
    }

    /** One client of a heartbeat: a silent one leaves its rooms and is terminated, another is pinged. */
    method BeatClient(socket: Id) returns (silent: bool)
      requires Valid() && socket in states
      modifies this`rooms, this`states, this`sent
      ensures Valid() && states.Keys == old(states).Keys
      ensures silent <==> !old(states)[socket].isAlive
      ensures forall s :: s in states ==> states[s].isAlive == (old(states)[s].isAlive && s != socket)
      ensures Members(rooms) == Purge(old(Members(rooms)), if silent then {socket} else {})
      ensures sent == old(sent) + if silent then [] else [Sent(socket, Ping)]
    {
      PurgeNothing(Members(rooms), {});
      silent := !states[socket].isAlive;
      if silent {
        RemoveFromRooms(socket);
      } else {
        states := states[socket := states[socket].(isAlive := false)];
        Send(socket, Ping);
      }
    }

    /** The first n clients have been visited by a heartbeat that began with the members `all`, the sent
        messages `before` and the answering sockets `alive`. */
    ghost predicate Beaten(n: nat, alive: set<Id>, all: set<(Id, Id)>, before: seq<Sent>)
      reads this
      requires n <= |clients|
    {
      && (forall s :: s in states ==> states[s].isAlive == (s in alive && s !in clients[..n]))
      && Members(rooms) == Purge(all, Closed(clients[..n], alive))
      && sent == before + Pings(Only(clients[..n], alive))
    }

    method BeatNext(n: nat, ghost alive: set<Id>, ghost all: set<(Id, Id)>, ghost before: seq<Sent>)
      returns (silent: bool)
      requires Valid() && n < |clients| && Beaten(n, alive, all, before)
      modifies this`rooms, this`states, this`sent
      ensures Valid() && states.Keys == old(states).Keys && Beaten(n + 1, alive, all, before)
      ensures silent <==> clients[n] !in alive
    {
      PrefixGrows(clients, n);
      PurgePrefix(clients, n, alive, all);
      PingsPrefix(clients, n, alive);
      silent := BeatClient(clients[n]);
    }

    /** The loop of a heartbeat over the clients. */
    method BeatClients(ghost alive: set<Id>) returns (terminated: seq<Id>)
      requires Valid() && alive == View().alive
      modifies this`rooms, this`states, this`sent
      ensures Valid() && states.Keys == old(states).Keys
      ensures Beaten(|clients|, alive, old(Members(rooms)), old(sent))
      ensures forall s :: s in terminated <==> s in clients && s !in alive
    {
      terminated := [];
      PurgeNothing(Members(rooms), {});
      for n := 0 to |clients|
        invariant Valid() && states.Keys == old(states).Keys
        invariant Beaten(n, alive, old(Members(rooms)), old(sent))
        invariant forall s :: s in terminated <==> s in clients[..n] && s !in alive
      {
        PrefixGrows(clients, n);
        var silent := BeatNext(n, alive, old(Members(rooms)), old(sent));
        if silent {
          terminated := terminated + [clients[n]];
        }
      }
      assert clients[..|clients|] == clients;
    }

    /** Sockets that did not answer since the last heartbeat leave their rooms; the others are pinged. */
    method OnHeartbeat() returns (terminated: seq<Id>)
      requires Valid()
      modifies this
      ensures Valid() && View() == Apply(old(View()), Heartbeat)
      ensures forall s :: s in terminated <==> s in old(clients) && !old(states)[s].isAlive
      ensures clients == old(clients)
      ensures sent == old(sent) + Pings(Only(old(clients), old(View()).alive))
    {
      ghost var alive := View().alive;
      terminated := BeatClients(alive);
      assert clients[..|clients|] == clients;
      assert Closed(clients, alive) == old(View()).clients - alive;
    }

    method CloseAll()
      requires Valid()
      modifies this
      ensures Valid() && View() == Apply(old(View()), Shutdown) && sent == old(sent)
    {
      ghost var gone: set<Id> := {};
      PurgeNothing(Members(rooms), {});
      for n := 0 to |clients|
        invariant Valid() && clients == old(clients) && states.Keys == old(states).Keys && sent == old(sent)
        invariant forall s :: s in gone <==> s in clients[..n]
        invariant forall s :: s in states ==> states[s].isAlive == old(states)[s].isAlive
        invariant Members(rooms) == Purge(old(Members(rooms)), gone)
      {
        assert clients[..n + 1] == clients[..n] + [clients[n]];
        PurgeTwice(old(Members(rooms)), gone, {clients[n]});
        RemoveFromRooms(clients[n]);
        gone := gone + {clients[n]};
      }
      assert clients[..|clients|] == clients;
      assert gone == View().clients;
    }

    method Perform(c: Command)
      requires Valid() && (c.Connect? ==> c.socket !in states)
      modifies this
      ensures Valid() && View() == Apply(old(View()), c)
    {
      match c {
        case Connect(s) => OnConnection(s);
        case Pong(s) => OnPong(s);
        case BadFrame(s) => OnBadFrame(s);
        case Subscribe(s, e) => OnSubscribe(s, e);
        case Unsubscribe(s, e) => OnUnsubscribe(s, e);
        case Close(s) => OnClose(s);
        case Heartbeat => var terminated := OnHeartbeat();
        case Broadcast(e, body, open) => OnSeatEvent(e, body, open);
        case Shutdown => CloseAll();
      }
    }

    /** After any sequence of commands the two indexes are exact inverses, and who is subscribed to what
        is the fold of the commands. */
    method Execute(commands: seq<Command>)
      requires Valid() && FreshSockets(View(), commands)
      modifies this
      ensures Valid() && View() == Fold(old(View()), commands)
    {
      for i := 0 to |commands|
        invariant Valid() && FreshSockets(View(), commands[i..])
        invariant Fold(View(), commands[i..]) == Fold(old(View()), commands)
      {
        assert commands[i..][0] == commands[i] && commands[i..][1..] == commands[i + 1..];
        Perform(commands[i]);
      }
    }
  }

  /** Every connection is a new socket object. */
  ghost predicate FreshSockets(v: Abstract, commands: seq<Command>)
    decreases |commands|
  {
    commands != [] ==>
      (commands[0].Connect? ==> commands[0].socket !in v.known)
      && FreshSockets(Apply(v, commands[0]), commands[1..])
  }

  // ---- What the fold says about one socket ----

  /** The command ends the socket's subscriptions: it is closed, found silent, found not open, or the
      server shuts down. */
  predicate Evicts(v: Abstract, c: Command, socket: Id) {
    || c == Close(socket)
    || (c.Heartbeat? && socket in v.clients && socket !in v.alive)
    || (c.Broadcast? && socket !in c.open && (socket, c.eventId) in v.members)
    || (c.Shutdown? && socket in v.clients)
  }

  /** The history that decides a subscription: the last of its own commands or evictions. */
  ghost predicate Subscribed(v: Abstract, commands: seq<Command>, socket: Id, eventId: Id)
    decreases |commands|
  {
    if commands == [] then (socket, eventId) in v.members
    else
      var before := commands[..|commands| - 1];
      var c := commands[|commands| - 1];
      var now := Fold(v, before);
      if c == Subscribe(socket, eventId) && socket in now.known then true
      else if c == Unsubscribe(socket, eventId) || Evicts(now, c, socket) then false
      else Subscribed(v, before, socket, eventId)
  }

  lemma {:induction false} FoldLast(v: Abstract, commands: seq<Command>)
    requires commands != []
    ensures Fold(v, commands) == Apply(Fold(v, commands[..|commands| - 1]), commands[|commands| - 1])
    decreases |commands|
  {
    if |commands| > 1 {
      FoldLast(Apply(v, commands[0]), commands[1..]);
      assert commands[1..][..|commands| - 2] == commands[..|commands| - 1][1..];
    } else {
      assert commands[..0] == [];
    }
  }

  ghost predicate KnownMembers(v: Abstract) {
    forall p :: p in v.members ==> p.0 in v.known
  }

  lemma {:induction false} FoldKnown(v: Abstract, commands: seq<Command>)
    requires KnownMembers(v)
    ensures KnownMembers(Fold(v, commands))
    decreases |commands|
  {
    if commands != [] {
      FoldKnown(Apply(v, commands[0]), commands[1..]);
    }
  }

  /** A socket is a member of a room if and only if its last own command or eviction subscribed it. */
  lemma {:induction false} MembershipIsHistory(v: Abstract, commands: seq<Command>, socket: Id, eventId: Id)
    requires KnownMembers(v)
    ensures (socket, eventId) in Fold(v, commands).members <==> Subscribed(v, commands, socket, eventId)
    decreases |commands|
  {
    if commands != [] {
      var before := commands[..|commands| - 1];
      FoldLast(v, commands);
      FoldKnown(v, before);
      MembershipIsHistory(v, before, socket, eventId);
    }
  }

  // ---- What the command history says ----

  const NOBODY := Abstract({}, {}, {}, {})

  /** The socket has connected. */
  ghost predicate HasConnected(h: seq<Command>, s: Id) {
    exists i :: 0 <= i < |h| && h[i] == Connect(s)
  }

  /** The socket has connected and was not closed since. */
  ghost predicate Tracked(h: seq<Command>, s: Id) {
    exists i :: 0 <= i < |h| && h[i] == Connect(s) && forall j :: i < j < |h| ==> h[j] != Close(s)
  }

  /** The i-th command is a sign of life of the socket: its connection, or a pong after it. */
  ghost predicate SignOfLife(h: seq<Command>, i: nat, s: Id) {
    i < |h| && (h[i] == Connect(s) || (h[i] == Pong(s) && HasConnected(h[..i], s)))
  }

  /** The j-th command is a heartbeat that finds the socket tracked. */
  ghost predicate BeatOn(h: seq<Command>, j: nat, s: Id) {
    j < |h| && h[j].Heartbeat? && Tracked(h[..j], s)
  }

  /** The last of the socket's signs of life and of the heartbeats on it is a sign of life. */
  ghost predicate Lively(h: seq<Command>, s: Id) {
    exists i: nat :: SignOfLife(h, i, s) && forall j :: i < j ==> !BeatOn(h, j, s)
  }

  lemma LastCommand(h: seq<Command>, c: Command, s: Id)
    ensures HasConnected(h + [c], s) <==> HasConnected(h, s) || c == Connect(s)
    ensures Tracked(h + [c], s) <==> c == Connect(s) || (Tracked(h, s) && c != Close(s))
  {
    var all := h + [c];
    if HasConnected(h, s) {
      var i :| 0 <= i < |h| && h[i] == Connect(s);
      assert all[i] == Connect(s);
    }
    if c == Connect(s) {
      assert all[|h|] == Connect(s);
    }
    if Tracked(h, s) && c != Close(s) {
      var i :| 0 <= i < |h| && h[i] == Connect(s) && forall j :: i < j < |h| ==> h[j] != Close(s);
      assert all[i] == Connect(s);
    }
    if Tracked(all, s) && c != Connect(s) {
      var i :| 0 <= i < |all| && all[i] == Connect(s) && forall j :: i < j < |all| ==> all[j] != Close(s);
      assert h[i] == Connect(s) && all[|h|] != Close(s);
      assert forall j :: i < j < |h| ==> h[j] == all[j];
    }
  }

  lemma SameSigns(h: seq<Command>, c: Command, i: nat, s: Id)
    requires i < |h|
    ensures SignOfLife(h + [c], i, s) <==> SignOfLife(h, i, s)
    ensures BeatOn(h + [c], i, s) <==> BeatOn(h, i, s)
  {
    assert (h + [c])[..i] == h[..i];
  }

  lemma LastSign(h: seq<Command>, c: Command, s: Id)
    ensures Lively(h + [c], s) <==>
      c == Connect(s) || (c == Pong(s) && HasConnected(h, s)) || (Lively(h, s) && !(c.Heartbeat? && Tracked(h, s)))
  {
    var all, last := h + [c], |h|;
    assert all[..last] == h && all[last] == c;
    if SignOfLife(all, last, s) {
      assert forall j :: last < j ==> !BeatOn(all, j, s);
    }
    if Lively(h, s) && !(c.Heartbeat? && Tracked(h, s)) {
      var i: nat :| SignOfLife(h, i, s) && forall j :: i < j ==> !BeatOn(h, j, s);
      SameSigns(h, c, i, s);
      forall j | i < j ensures !BeatOn(all, j, s) {
        if j < last {
          SameSigns(h, c, j, s);
        }
      }
    }
    if Lively(all, s) && !SignOfLife(all, last, s) {
      var i: nat :| SignOfLife(all, i, s) && forall j :: i < j ==> !BeatOn(all, j, s);
      SameSigns(h, c, i, s);
      assert !BeatOn(all, last, s);
      forall j | i < j ensures !BeatOn(h, j, s) {
        if j < last {
          SameSigns(h, c, j, s);
        }
      }
    }
  }

  /** Who is known, tracked and alive after a history of commands, in terms of the history alone. */
  lemma {:induction false} HistoryDecides(h: seq<Command>, s: Id)
    ensures var v := Fold(NOBODY, h);
      && (s in v.known <==> HasConnected(h, s)) && (s in v.clients <==> Tracked(h, s)) && (s in v.alive <==> Lively(h, s))
    decreases |h|
  {
    if h != [] {
      var before, c := h[..|h| - 1], h[|h| - 1];
      FoldLast(NOBODY, h);
      HistoryDecides(before, s);
      assert h == before + [c];
      LastCommand(before, c, s);
      LastSign(before, c, s);
    }
  }

  /** The command c after the history h ends the socket's subscriptions. */
  ghost predicate EvictedBy(h: seq<Command>, c: Command, s: Id)
    decreases |h|, 1
  {
    || c == Close(s)
    || (c.Heartbeat? && Tracked(h, s) && !Lively(h, s))
    || (c.Broadcast? && s !in c.open && SubscribedAfter(h, s, c.eventId))
    || (c.Shutdown? && Tracked(h, s))
  }

  /** The last of the socket's own commands and evictions subscribed it to the event. */
  ghost predicate SubscribedAfter(h: seq<Command>, s: Id, e: Id)
    decreases |h|, 0
  {
    h != [] &&
    var before, c := h[..|h| - 1], h[|h| - 1];
    || (c == Subscribe(s, e) && HasConnected(before, s))
    || (c != Unsubscribe(s, e) && !EvictedBy(before, c, s) && SubscribedAfter(before, s, e))
  }

  /** Who is subscribed to what after a history of commands, in terms of the history alone. */
  lemma {:induction false} HistoryDecidesRooms(h: seq<Command>, s: Id, e: Id)
    ensures (s, e) in Fold(NOBODY, h).members <==> SubscribedAfter(h, s, e)
    decreases |h|
  {
    if h != [] {
      var before, c := h[..|h| - 1], h[|h| - 1];
      FoldLast(NOBODY, h);
      HistoryDecides(before, s);
      HistoryDecidesRooms(before, s, e);
      FoldKnown(NOBODY, before);
      if c.Broadcast? {
        HistoryDecidesRooms(before, s, c.eventId);
        BroadcastDrops(Fold(NOBODY, before), c, s, e);
      }
    }
  }

  lemma BroadcastDrops(v: Abstract, c: Command, s: Id, e: Id)
    requires c.Broadcast?
    ensures (s, e) in Apply(v, c).members <==> (s, e) in v.members && !(s !in c.open && (s, c.eventId) in v.members)
  {
    var gone := set p | p in v.members && p.1 == c.eventId && p.0 !in c.open :: p.0;
    if (s, c.eventId) in v.members && s !in c.open {
      assert (s, c.eventId).0 in gone;
    }
    assert Apply(v, c).members == Purge(v.members, gone);
  }

  /** A heartbeat drops a tracked client if and only if it gave no sign of life since the heartbeat before:
      so one that connects or pongs in between is kept, and one that does neither goes with the second. */
  lemma HeartbeatDropsSilent(before: seq<Command>, between: seq<Command>, s: Id)
    requires Tracked(before, s) && Tracked(before + [Heartbeat] + between, s)
    requires forall i :: 0 <= i < |between| ==> !between[i].Heartbeat?
    ensures Evicts(Fold(NOBODY, before + [Heartbeat] + between), Heartbeat, s) <==>
            Pong(s) !in between && Connect(s) !in between
  {
    HistoryDecides(before + [Heartbeat] + between, s);
    LivelyBetween(before, between, s);
  }

  lemma {:induction false} LivelyBetween(before: seq<Command>, between: seq<Command>, s: Id)
    requires Tracked(before, s) && forall i :: 0 <= i < |between| ==> !between[i].Heartbeat?
    ensures HasConnected(before + [Heartbeat] + between, s)
    ensures Lively(before + [Heartbeat] + between, s) <==> Pong(s) in between || Connect(s) in between
    decreases |between|
  {
    if between == [] {
      assert before + [Heartbeat] + between == before + [Heartbeat];
      LastCommand(before, Heartbeat, s);
      LastSign(before, Heartbeat, s);
    } else {
      var rest, c := between[..|between| - 1], between[|between| - 1];
      LivelyBetween(before, rest, s);
      assert before + [Heartbeat] + between == (before + [Heartbeat] + rest) + [c];
      LastCommand(before + [Heartbeat] + rest, c, s);
      LastSign(before + [Heartbeat] + rest, c, s);
      assert between == rest + [c];
    }
  }

  // ---- Facts the methods use ----

  function Closed(xs: seq<Id>, open: set<Id>): set<Id> {
    set s | s in xs && s !in open
  }

  function SeatEvents(sockets: seq<Id>, eventId: Id, body: Id): seq<Sent> {
    seq(|sockets|, i requires 0 <= i < |sockets| => Sent(sockets[i], SeatEvent(eventId, body)))
  }

  lemma ClosedMembers(rooms: map<Id, seq<Id>>, eventId: Id, open: set<Id>)
    ensures Closed(RoomOf(rooms, eventId), open) ==
            set p | p in Members(rooms) && p.1 == eventId && p.0 !in open :: p.0
  {
    var closed := set p | p in Members(rooms) && p.1 == eventId && p.0 !in open :: p.0;
    forall s ensures s in Closed(RoomOf(rooms, eventId), open) <==> s in closed {
      assert In(rooms, s, eventId) <==> (s, eventId) in Members(rooms);
    }
  }

  function Pings(sockets: seq<Id>): seq<Sent> {
    seq(|sockets|, i requires 0 <= i < |sockets| => Sent(sockets[i], Ping))
  }

  lemma PrefixGrows(xs: seq<Id>, n: nat)
    requires NoDuplicates(xs) && n < |xs|
    ensures xs[n] !in xs[..n] && forall y :: y in xs[..n + 1] <==> y in xs[..n] || y == xs[n]
  {
    assert xs[..n + 1] == xs[..n] + [xs[n]];
  }

  lemma OnlyPrefix(xs: seq<Id>, n: nat, keep: set<Id>)
    requires n < |xs|
    ensures Only(xs[..n + 1], keep) == Only(xs[..n], keep) + if xs[n] in keep then [xs[n]] else []
  {
    assert xs[..n + 1][..n] == xs[..n];
  }

  lemma PurgePrefix(xs: seq<Id>, n: nat, open: set<Id>, all: set<(Id, Id)>)
    requires n < |xs|
    ensures Purge(Purge(all, Closed(xs[..n], open)), if xs[n] in open then {} else {xs[n]}) ==
            Purge(all, Closed(xs[..n + 1], open))
  {
    assert xs[..n + 1] == xs[..n] + [xs[n]];
    assert Closed(xs[..n + 1], open) == Closed(xs[..n], open) + if xs[n] in open then {} else {xs[n]};
    PurgeTwice(all, Closed(xs[..n], open), if xs[n] in open then {} else {xs[n]});
  }

  lemma PingsPrefix(xs: seq<Id>, n: nat, alive: set<Id>)
    requires n < |xs|
    ensures Pings(Only(xs[..n + 1], alive)) ==
            Pings(Only(xs[..n], alive)) + if xs[n] in alive then [Sent(xs[n], Ping)] else []
  {
    OnlyPrefix(xs, n, alive);
  }

  lemma SeatEventsPrefix(xs: seq<Id>, n: nat, open: set<Id>, eventId: Id, body: Id)
    requires n < |xs|
    ensures SeatEvents(Only(xs[..n + 1], open), eventId, body) ==
            SeatEvents(Only(xs[..n], open), eventId, body) +
            if xs[n] in open then [Sent(xs[n], SeatEvent(eventId, body))] else []
  {
    OnlyPrefix(xs, n, open);
  }

  lemma PurgeNothing(members: set<(Id, Id)>, gone: set<Id>)
    requires forall p :: p in members ==> p.0 !in gone
    ensures Purge(members, gone) == members
  {
  }

  lemma PurgeTwice(members: set<(Id, Id)>, gone: set<Id>, more: set<Id>)
    ensures Purge(Purge(members, gone), more) == Purge(members, gone + more)
  {
  }

  lemma SameMembers(rooms: map<Id, seq<Id>>, members: set<(Id, Id)>)
    requires forall s: Id, e: Id :: In(rooms, s, e) <==> (s, e) in members
    ensures Members(rooms) == members
  {
    forall p ensures p in Members(rooms) <==> p in members {
      assert p in Members(rooms) <==> In(rooms, p.0, p.1);
      assert p == (p.0, p.1);
    }
  }

  lemma LeaveDrops(rooms: map<Id, seq<Id>>, eventId: Id, socket: Id)
    requires NoEmptyRoom(rooms)
    ensures NoEmptyRoom(Leave(rooms, eventId, socket))
    ensures forall s, e :: In(Leave(rooms, eventId, socket), s, e) <==> In(rooms, s, e) && !(s == socket && e == eventId)
    ensures Members(Leave(rooms, eventId, socket)) == Members(rooms) - {(socket, eventId)}
  {
    var after := Leave(rooms, eventId, socket);
    LeaveKeepsNonEmpty(rooms, eventId, socket);
    forall s, e ensures In(after, s, e) <==> In(rooms, s, e) && !(s == socket && e == eventId) {
      LeaveOne(rooms, eventId, socket, e);
      assert In(after, s, e) <==> s in RoomOf(after, e);
    }
    SameMembers(after, Members(rooms) - {(socket, eventId)});
  }

  lemma AfterRemoval(before: map<Id, seq<Id>>, after: map<Id, seq<Id>>, socket: Id)
    requires forall e :: RoomOf(after, e) == Without(RoomOf(before, e), socket)
    ensures forall s, e :: In(after, s, e) <==> In(before, s, e) && s != socket
    ensures Members(after) == Purge(Members(before), {socket})
  {
    forall s, e ensures In(after, s, e) <==> In(before, s, e) && s != socket {
      assert In(after, s, e) <==> s in RoomOf(after, e);
      assert In(before, s, e) <==> s in RoomOf(before, e);
    }
    forall p ensures p in Members(after) <==> p in Purge(Members(before), {socket}) {
      assert p in Members(after) <==> In(after, p.0, p.1);
      assert p in Members(before) <==> In(before, p.0, p.1);
    }
  }
}
