/** `src/relay/server.rs` as it is written: rooms are objects whose fields
    handlers take and set, and the map of rooms is inserted into and removed
    from.  What a handler does from one `lock().await` to the next is one method,
    which reports when it finds the lock taken.  Each is proved to be steps of the
    machine in `Rooms`, so that every theorem about that machine is about these
    methods however handlers interleave. */
module Server {
  import opened Options
  import opened Rooms
  import opened RelayTheorems

  /** `Room` and its mutex; the connections of its sessions stand for them. */
  class RoomCell {
    ghost const id: nat    // its place among the rooms there have been
    var first: Option<nat>
    var second: Option<nat>
    var running: bool
    var locked: bool

    constructor (session: nat, ghost id: nat)
      ensures first == Some(session) && second == None && !running && !locked && this.id == id
    {
      this.id := id;
      first, second, running, locked := Some(session), None, false, false;
    }

    predicate Full()
      reads this
    {
      (first.Some? && second.Some?) || running
    }

    ghost predicate Shows(room: Room)
      reads this
    {
      first == room.first && second == room.second && running == room.running && locked == room.holder.Some?
    }
  }

  /** How a handler's turn ends: with a seat, without one, or waiting for a lock. */
  datatype Answer = Seat(name: string) | RoomFull | AnswerLost | Waits

  datatype Taken = Sessions(second: nat, first: nat) | NotFull | Locked

  class RoomServer {
    var rooms: map<string, RoomCell>
    var locked: bool                 // the mutex of the map
    ghost var heap: seq<RoomCell>    // every room there has been, the oldest first

    constructor ()
      ensures rooms == map[] && heap == [] && !locked
    {
      rooms, heap, locked := map[], [], false;
    }

    /** The objects are the rooms of `s`, and the map its map. */
    ghost predicate Shows(s: Relay)
      reads this, heap
    {
      && |heap| == |s.rooms| && locked == s.holder.Some?
      && (forall i :: 0 <= i < |heap| ==> heap[i].id == i && heap[i].Shows(s.rooms[i]))
      && (forall name :: name in rooms <==> name in s.table)
      && (forall name :: name in s.table ==> s.table[name] < |heap| && rooms[name] == heap[s.table[name]])
    }

    /** `negotiate_info`, once it has the room name: it asks for the map, and looks
        the name up. */
    method TakeMap(ghost names: seq<string>, ghost s: Relay, session: nat, name: string)
      returns (taken: bool, room: Option<RoomCell>, ghost s': Relay)
      requires Reachable(names, s) && Shows(s) && IsAt(names, s, session, name) && s.pcs[session] == WantMap
      modifies this`locked
      ensures Reachable(names, s') && Shows(s') && locked
      ensures taken == !old(locked)
      ensures !taken ==> s' == s && room == None
      ensures taken ==> room == if name in rooms then Some(rooms[name]) else None
      ensures taken ==> s' == SetPc(s, session, if name in rooms then WantRoom(s.table[name]) else Creating)
                                .(holder := Some(session))
    {
      if locked {
        return false, None, s;
      }
      s' := SetPc(s, session, if name in rooms then WantRoom(s.table[name]) else Creating).(holder := Some(session));
      ReachStep(names, s, session, Event.TakeMap, s');
      locked, taken := true, true;
      room := if name in rooms then Some(rooms[name]) else None;
    }

    /** With the map held, and a room of that name in it: the second to ask takes
        the other seat, everybody after that is turned away.  The machine takes the
        room's lock and then makes the step that the answer stands for. */
    method JoinRoom(ghost names: seq<string>, ghost s: Relay, session: nat, room: RoomCell, ghost r: nat,
                    name: string, answered: bool)
      returns (answer: Answer, ghost mid: Relay, ghost s': Relay)
      requires Reachable(names, s) && Shows(s) && IsAt(names, s, session, name) && s.pcs[session] == WantRoom(r)
      requires r < |heap| && room == heap[r]
      modifies this`locked, room`second
      ensures Reachable(names, s') && Shows(s')
      ensures answer.Waits? <==> room.locked
      ensures answer.RoomFull? <==> !room.locked && room.first.Some? && old(room.second).Some?
      ensures answer.AnswerLost? <==> !room.locked && !(room.first.Some? && old(room.second).Some?) && !answered
      ensures answer.Seat? ==> answer.name == names[session]
      ensures if answer.Waits? then s' == s
              else Step(names, s, session, TakeRoom, mid) && Step(names, mid, session, JoiningEvent(answer), s')
      ensures s'.pcs == s.pcs[session := if answer.Seat? then LookUp
                                         else if answer.Waits? then WantRoom(r)
                                         else Rooms.Done]
      ensures locked == answer.Waits?
      ensures room.second == if answer.Seat? then Some(session) else old(room.second)
    {
      HoldsTheMap(names, s, session);
      RoomIsIdle(names, s, r);
      assert room.Shows(s.rooms[r]);
      mid := s;
      if room.locked {
        return Waits, mid, s;
      }
      mid := TakeRoomStep(names, s, session, r);
      if room.Full() {
        s' := LeaveStep(names, s, mid, session, r, Refuse);
        answer := RoomFull;
        locked := false;
      } else if !answered {
        s' := LeaveStep(names, s, mid, session, r, JoinFails);
        answer := AnswerLost;
        locked := false;
      } else {
        s' := TakeSecondSeat(names, s, mid, session, room, r);
        answer := Seat(name);
      }
    }

    method TakeSecondSeat(ghost names: seq<string>, ghost s: Relay, ghost mid: Relay, session: nat,
                          room: RoomCell, ghost r: nat)
      returns (ghost s': Relay)
      requires Shows(s) && AtFreeRoom(names, s, session, r) && r < |heap| && room == heap[r] && !room.Full()
      requires Reachable(names, mid) && mid == WithRoom(s, session, r)
      modifies this`locked, room`second
      ensures Reachable(names, s') && Shows(s') && s'.pcs == s.pcs[session := LookUp]
      ensures Step(names, mid, session, Join, s')
      ensures room.second == Some(session) && !locked
    {
      s' := JoinStep(names, s, mid, session, r);
      room.second := Some(session);
      locked := false;
    }

    /** With the map held, and no such room in it: the first to ask gets a new room's
        first seat. */
    method CreateRoom(ghost names: seq<string>, ghost s: Relay, session: nat, name: string, answered: bool)
      returns (answer: Answer, ghost s': Relay)
      requires Reachable(names, s) && Shows(s) && IsAt(names, s, session, name)
      requires name !in rooms && s.pcs[session] == Creating
      modifies this
      ensures Reachable(names, s') && Shows(s') && !locked
      ensures Step(names, s, session, if answered then Create else AnswerFails, s')
      ensures s'.pcs == s.pcs[session := if answered then LookUp else Rooms.Done]
      ensures answer == if answered then Seat(names[session]) else AnswerLost
      ensures answered ==>
                && name in rooms && fresh(rooms[name])
                && rooms == old(rooms)[name := rooms[name]] && heap == old(heap) + [rooms[name]]
                && rooms[name].first == Some(session) && rooms[name].second == None
      ensures !answered ==> rooms == old(rooms) && heap == old(heap)
    {
      if answered {
        s' := AddRoom(names, s, session, name);
        answer := Seat(name);
      } else {
        answer := AnswerLost;
        s' := SetPc(s, session, Rooms.Done).(holder := None);
        ReachStep(names, s, session, AnswerFails, s');
        locked := false;
      }
    }

    method AddRoom(ghost names: seq<string>, ghost s: Relay, session: nat, name: string) returns (ghost s': Relay)
      requires Reachable(names, s) && Shows(s) && IsAt(names, s, session, name)
      requires name !in rooms && s.pcs[session] == Creating
      modifies this
      ensures Reachable(names, s') && Shows(s') && s'.pcs == s.pcs[session := LookUp] && !locked
      ensures Step(names, s, session, Create, s')
      ensures name in rooms && fresh(rooms[name])
      ensures rooms == old(rooms)[name := rooms[name]] && heap == old(heap) + [rooms[name]]
      ensures rooms[name].first == Some(session) && rooms[name].second == None
    {
      MapIsSound(names, s);
      s' := CreateStep(names, s, session);
      var room := new RoomCell(session, |heap|);
      rooms := rooms[name := room];
      heap := heap + [room];
      locked := false;
    }

    /** `handle`, after the negotiation and again before the keepalive: the room is
        looked up by its name, and the map given back at once. */
    method LookUpOwn(ghost names: seq<string>, ghost s: Relay, ghost h: nat, name: string)
      returns (waits: bool, room: Option<RoomCell>, ghost s': Relay)
      requires Reachable(names, s) && Shows(s) && IsAt(names, s, h, name)
      requires s.pcs[h] == LookUp || s.pcs[h] == KeepLookUp
      ensures Reachable(names, s') && Shows(s')
      ensures waits == locked
      ensures waits ==> s' == s && room == None
      ensures !waits ==> room == if name in rooms then Some(rooms[name]) else None
      ensures room.Some? ==>
                && name in s.table && s.table[name] < |heap| && room.value == heap[s.table[name]]
                && s' == SetPc(s, h, if s.pcs[h] == LookUp then WantOwn(s.table[name]) else KeepWait(s.table[name]))
      ensures !waits && room.None? ==> s' == SetPc(s, h, Rooms.Done)
    {
      if locked {
        return true, None, s;
      }
      waits := false;
      if name in rooms {
        room := Some(rooms[name]);
        s' := SetPc(s, h, if s.pcs[h] == LookUp then WantOwn(s.table[name]) else KeepWait(s.table[name]));
      } else {
        room := None;
        s' := SetPc(s, h, Rooms.Done);
      }
      ReachStep(names, s, h, if s.pcs[h] == LookUp then LookUpRoom else KeepLook, s');
    }

    /** With the room looked up, which by now may be another than the map gives: when
        it is full both sessions are taken out of it, in the order second, first. */
    method TakeFrom(ghost names: seq<string>, ghost s: Relay, ghost h: nat, room: RoomCell, ghost r: nat)
      returns (taken: Taken, ghost s': Relay)
      requires Reachable(names, s) && Shows(s) && h < |s.pcs| && h < |names| && h < |s.peers|
      requires s.pcs[h] == WantOwn(r) && r < |heap| && room == heap[r]
      modifies room
      ensures Reachable(names, s') && Shows(s')
      ensures taken.Locked? <==> old(room.locked)
      ensures taken.Sessions? <==> !old(room.locked) && old(room.Full())
      ensures taken.Locked? ==> s' == s
      ensures taken.NotFull? ==> s'.pcs == s.pcs[h := KeepLookUp]
      ensures taken.Sessions? ==>
                && old(room.second) == Some(taken.second) && old(room.first) == Some(taken.first)
                && room.first == None && room.second == None && room.locked
                && s'.pcs == s.pcs[h := Relaying(r, taken.first, taken.second)]
      ensures !taken.Sessions? ==> unchanged(room)
    {
      assert room.Shows(s.rooms[r]);
      if room.locked {
        return Locked, s;
      }
      if !room.Full() {
        s' := SetPc(s, h, KeepLookUp);
        ReachStep(names, s, h, TakeOwn, s');
        return NotFull, s';
      }
      taken, s' := TakeBoth(names, s, h, room, r);
    }

    method TakeBoth(ghost names: seq<string>, ghost s: Relay, ghost h: nat, room: RoomCell, ghost r: nat)
      returns (taken: Taken, ghost s': Relay)
      requires Reachable(names, s) && Shows(s) && h < |s.pcs| && h < |names| && h < |s.peers|
      requires s.pcs[h] == WantOwn(r) && r < |heap| && room == heap[r] && !room.locked && room.Full()
      modifies room
      ensures Reachable(names, s') && Shows(s') && taken.Sessions?
      ensures old(room.second) == Some(taken.second) && old(room.first) == Some(taken.first)
      ensures room.first == None && room.second == None && room.locked
      ensures s'.pcs == s.pcs[h := Relaying(r, taken.first, taken.second)]
    {
      s' := TakeBothStep(names, s, h, r);
      var second := room.second.value;
      room.second := None;
      var first := room.first.value;
      room.first := None;
      room.locked := true;
      taken := Sessions(second, first);
    }

    /** `handle` after the relay: the room is emptied, its lock still held. */
    method EmptyRoom(ghost names: seq<string>, ghost s: Relay, ghost h: nat, room: RoomCell, name: string)
      returns (ghost s': Relay)
      requires Reachable(names, s) && Shows(s) && RelayEnds(names, s, h, name)
      requires s.pcs[h].room < |heap| && room == heap[s.pcs[h].room]
      modifies room`first, room`second
      ensures Reachable(names, s') && Shows(s') && IsAt(names, s', h, name) && room.locked
      ensures room.first == None && room.second == None
      ensures s'.pcs == s.pcs[h := WantRemove(s.pcs[h].room, s.pcs[h].first, s.pcs[h].second)]
    {
      RelayedIsCurrent(names, s, h);
      s' := EndRelayStep(names, s, h);
      room.first := None;
      room.second := None;
    }

    /** ... and then removed from the map, when that can be had: what is removed is
        the room that was relayed. */
    method RemoveRoom(ghost names: seq<string>, ghost s: Relay, ghost h: nat, room: RoomCell, name: string)
      returns (removed: bool, ghost s': Relay)
      requires Reachable(names, s) && Shows(s) && IsAt(names, s, h, name) && s.pcs[h].WantRemove?
      requires s.pcs[h].room < |heap| && room == heap[s.pcs[h].room]
      modifies this`rooms, room`locked
      ensures Reachable(names, s') && Shows(s') && removed == !locked
      ensures name in old(rooms) && old(rooms[name]) == room
      ensures rooms == if removed then old(rooms) - {name} else old(rooms)
      ensures room.locked == !removed
      ensures s'.pcs == if removed then s.pcs[h := Rooms.Done] else s.pcs
    {
      RelayedIsCurrent(names, s, h);
      if locked {
        return false, s;
      }
      s' := RemoveStep(names, s, h);
      rooms := rooms - {name};
      room.locked := false;
      removed := true;
    }
  }

  /** The machine's step behind an answer, once it holds the room. */
  function JoiningEvent(answer: Answer): Event {
    match answer
    case Seat(_) => Join
    case RoomFull => Refuse
    case _ => JoinFails
  }

  // ----- the steps behind the methods -----

  ghost predicate IsAt(names: seq<string>, s: Relay, h: nat, name: string) {
    h < |s.pcs| && h < |names| && h < |s.peers| && names[h] == name
  }

  /** The copying of both directions is over. */
  ghost predicate RelayEnds(names: seq<string>, s: Relay, h: nat, name: string) {
    && IsAt(names, s, h, name) && s.pcs[h].Relaying? && InRoom(s, s.pcs[h].room)
    && Bridging(s, s.pcs[h], s.pcs[h].first) && Bridging(s, s.pcs[h], s.pcs[h].second)
    && var a, b := s.peers[s.pcs[h].first].feed.value.status, s.peers[s.pcs[h].second].feed.value.status;
       a.Broken? || b.Broken? || (a.AtEof? && b.AtEof?)
  }

  lemma MapIsSound(names: seq<string>, s: Relay)
    requires Reachable(names, s)
    ensures TableInv(s)
  {
    ReachableInv(names, s);
  }

  lemma HoldsTheMap(names: seq<string>, s: Relay, h: nat)
    requires Reachable(names, s) && h < |s.pcs| && HoldsMap(s.pcs[h])
    ensures TableInv(s) && s.holder == Some(h)
  {
    ReachableInv(names, s);
    assert LockInv(s, h);
  }

  lemma RelayedIsCurrent(names: seq<string>, s: Relay, h: nat)
    requires Reachable(names, s) && h < |names| && h < |s.pcs| && (s.pcs[h].Relaying? || s.pcs[h].WantRemove?)
    ensures TableInv(s) && names[h] in s.table && s.table[names[h]] == s.pcs[h].room
    ensures s.pcs[h].room < |s.rooms| && s.rooms[s.pcs[h].room].holder == Some(h)
  {
    ReachableInv(names, s);
    assert HandlerInv(names, s, h) && LockInv(s, h);
    assert HoldsRoom(s.pcs[h], s.pcs[h].room);
  }

  lemma ReachStep(names: seq<string>, s: Relay, h: nat, e: Event, s': Relay)
    requires Reachable(names, s) && Step(names, s, h, e, s')
    ensures Reachable(names, s')
  {
    var run: seq<Relay> :| IsRun(names, run) && run[|run| - 1] == s;
    ExtendRun(names, run, h, e, s');
    assert (run + [s'])[|run + [s']| - 1] == s';
  }

  lemma CreateStep(names: seq<string>, s: Relay, h: nat) returns (s': Relay)
    requires Reachable(names, s) && h < |names| && IsAt(names, s, h, names[h]) && s.pcs[h] == Creating
    ensures Reachable(names, s') && s'.pcs == s.pcs[h := LookUp] && s'.holder == None
    ensures Step(names, s, h, Create, s')
    ensures s'.rooms == s.rooms + [Room(names[h], Some(h), None, false, None)]
    ensures s'.table == s.table[names[h] := |s.rooms|]
  {
    s' := SetPeer(SetPc(s, h, LookUp), h, s.peers[h].(place := Some(Place(|s.rooms|, First))))
            .(rooms := s.rooms + [Room(names[h], Some(h), None, false, None)],
              table := s.table[names[h] := |s.rooms|], holder := None);
    ReachStep(names, s, h, Create, s');
  }

  ghost predicate AtFreeRoom(names: seq<string>, s: Relay, h: nat, r: nat) {
    && Reachable(names, s) && h < |names| && IsAt(names, s, h, names[h])
    && s.pcs[h] == WantRoom(r) && r < |s.rooms| && s.rooms[r].holder.None?
  }

  lemma RoomIsIdle(names: seq<string>, s: Relay, r: nat)
    requires Reachable(names, s) && r < |s.rooms|
    ensures !s.rooms[r].running
  {
    ReachableInv(names, s);
    assert RoomInv(names, s, r);
  }

  /** Both locks are held. */
  function WithRoom(s: Relay, h: nat, r: nat): Relay
    requires h < |s.pcs| && r < |s.rooms|
  {
    SetHolder(SetPc(s, h, if IsFull(s.rooms[r]) then Refusing(r) else Joining(r)), r, Some(h))
  }

  lemma TakeRoomStep(names: seq<string>, s: Relay, h: nat, r: nat) returns (s': Relay)
    requires AtFreeRoom(names, s, h, r)
    ensures Reachable(names, s') && s' == WithRoom(s, h, r) && Step(names, s, h, TakeRoom, s')
  {
    s' := WithRoom(s, h, r);
    ReachStep(names, s, h, TakeRoom, s');
  }

  /** Turned away, or the answer is lost: both locks are given back. */
  lemma LeaveStep(names: seq<string>, s: Relay, mid: Relay, h: nat, r: nat, e: Event) returns (s': Relay)
    requires AtFreeRoom(names, s, h, r) && Reachable(names, mid) && mid == WithRoom(s, h, r)
    requires e == if IsFull(s.rooms[r]) then Refuse else JoinFails
    ensures Reachable(names, s') && Step(names, mid, h, e, s') && s' == SetPc(s, h, Rooms.Done).(holder := None)
  {
    s' := SetHolder(SetPc(mid, h, Rooms.Done), r, None).(holder := None);
    ReachStep(names, mid, h, e, s');
    assert s'.rooms[r] == s.rooms[r];
    assert s'.rooms == s.rooms;
  }

  lemma JoinStep(names: seq<string>, s: Relay, mid: Relay, h: nat, r: nat) returns (s': Relay)
    requires AtFreeRoom(names, s, h, r) && !IsFull(s.rooms[r]) && Reachable(names, mid) && mid == WithRoom(s, h, r)
    ensures Reachable(names, s') && Step(names, mid, h, Join, s')
    ensures s'.pcs == s.pcs[h := LookUp] && s'.table == s.table && s'.holder == None
    ensures s'.rooms == s.rooms[r := s.rooms[r].(second := Some(h))]
  {
    s' := SetPeer(SetPc(mid, h, LookUp), h, mid.peers[h].(place := Some(Place(r, Second))))
            .(rooms := mid.rooms[r := mid.rooms[r].(second := Some(h), holder := None)], holder := None);
    ReachStep(names, mid, h, Join, s');
    assert s'.rooms[r] == s.rooms[r].(second := Some(h));
  }

  lemma TakeBothStep(names: seq<string>, s: Relay, h: nat, r: nat) returns (s': Relay)
    requires Reachable(names, s) && h < |names| && IsAt(names, s, h, names[h])
    requires s.pcs[h] == WantOwn(r) && r < |s.rooms| && s.rooms[r].holder.None? && IsFull(s.rooms[r])
    ensures s.rooms[r].first.Some? && s.rooms[r].second.Some?
    ensures Reachable(names, s') && s'.table == s.table && s'.holder == s.holder
    ensures s'.pcs == s.pcs[h := Relaying(r, s.rooms[r].first.value, s.rooms[r].second.value)]
    ensures s'.rooms == s.rooms[r := s.rooms[r].(first := None, second := None, holder := Some(h))]
  {
    ReachableInv(names, s);
    assert RoomInv(names, s, r);
    var f, g := s.rooms[r].first.value, s.rooms[r].second.value;
    s' := SetPc(s, h, Relaying(r, f, g)).(
            rooms := s.rooms[r := s.rooms[r].(first := None, second := None, holder := Some(h))],
            peers := Bridge(s.peers, f, g));
    ReachStep(names, s, h, TakeOwn, s');
  }

  lemma EndRelayStep(names: seq<string>, s: Relay, h: nat) returns (s': Relay)
    requires Reachable(names, s) && h < |names| && RelayEnds(names, s, h, names[h])
    ensures Reachable(names, s') && s'.table == s.table && s'.holder == s.holder && |s'.peers| == |s.peers|
    ensures s'.pcs == s.pcs[h := WantRemove(s.pcs[h].room, s.pcs[h].first, s.pcs[h].second)]
    ensures var r := s.pcs[h].room; s'.rooms == s.rooms[r := s.rooms[r].(first := None, second := None)]
  {
    var Relaying(r, f, g) := s.pcs[h];
    s' := SetPc(s, h, WantRemove(r, f, g)).(rooms := s.rooms[r := s.rooms[r].(first := None, second := None)]);
    ReachStep(names, s, h, Event.EndRelay, s');
  }

  lemma RemoveStep(names: seq<string>, s: Relay, h: nat) returns (s': Relay)
    requires Reachable(names, s) && h < |names| && IsAt(names, s, h, names[h])
    requires s.pcs[h].WantRemove? && InRoom(s, s.pcs[h].room) && s.holder.None?
    ensures Reachable(names, s') && s'.pcs == s.pcs[h := Rooms.Done] && s'.table == s.table - {names[h]}
    ensures s'.holder == None
    ensures var r := s.pcs[h].room; s'.rooms == s.rooms[r := s.rooms[r].(holder := None)]
  {
    var r := s.pcs[h].room;
    s' := SetHolder(SetPc(s, h, Rooms.Done), r, None).(table := s.table - {names[h]});
    ReachStep(names, s, h, Remove, s');
  }
}
