/** The room protocol of `src/relay/server.rs` as a machine over its connection
    handlers.  Handler `h` serves connection `h`, which asks for room `names[h]`.
    Every wait for the map lock or for a room's lock is a step of its own, as is
    every write to a client, so handlers interleave at every await point.

    A room is a value in the heap `rooms`; the map gives the current room of a
    name.  A name can be given a new room while a handler still holds on to the
    old one, which is why handlers that look their name up again may find a room
    they did not negotiate. */
module Rooms {
  import opened Bytes
  import opened Framing
  import opened Options

  /** A keepalive frame. */
  const PING: Bytes := Frame(PING_MESSAGE)

  datatype Slot = First | Second

  datatype Place = Place(room: nat, slot: Slot)

  datatype Status = Open | AtEof | Broken

  /** One direction of a bridge: what is copied to the session at hand. */
  datatype Feed = Feed(from: nat, read: nat, buffer: Bytes, status: Status)

  /** A client connection: what the client has sent after its room name and whether
      it closed, what the relay has sent after its answer to that name, which seat
      the client took, what it is bridged with, and whether a write to it failed. */
  datatype Peer = Peer(
    input: Bytes, closed: bool, output: Bytes, place: Option<Place>, feed: Option<Feed>, broken: bool)

  /** `running` stands for an unfinished `handle`. */
  datatype Room = Room(name: string, first: Option<nat>, second: Option<nat>, running: bool, holder: Option<nat>)

  datatype Pc =
    | WantMap                              // negotiate_info waits for the map
    | Creating                             // holds the map, answers "ok"
    | WantRoom(room: nat)                  // holds the map, waits for the room
    | Refusing(room: nat)                  // holds both, answers "room full"
    | Joining(room: nat)                   // holds both, answers "ok"
    | LookUp                               // handle waits for the map
    | WantOwn(room: nat)                   // handle waits for the room
    | Relaying(room: nat, first: nat, second: nat)    // holds the room
    | WantRemove(room: nat, first: nat, second: nat)  // holds the room, waits for the map
    | KeepLookUp                           // do_keepalive waits for the map
    | KeepWait(room: nat)                  // do_keepalive sleeps, then waits for the room
    | Pinging(room: nat, session: nat, rest: Bytes)   // holds the room, writes a ping
    | Done
    | Panicked

  datatype Relay = Relay(rooms: seq<Room>, table: map<string, nat>, holder: Option<nat>, pcs: seq<Pc>, peers: seq<Peer>)

  predicate IsFull(room: Room) {
    (room.first.Some? && room.second.Some?) || room.running
  }

  predicate HoldsMap(pc: Pc) {
    pc.Creating? || pc.WantRoom? || pc.Refusing? || pc.Joining?
  }

  predicate HoldsRoom(pc: Pc, r: nat) {
    (pc.Refusing? || pc.Joining? || pc.Relaying? || pc.WantRemove? || pc.Pinging?) && pc.room == r
  }

  function Start(names: seq<string>): Relay {
    Relay([], map[], None, seq(|names|, _ => WantMap), seq(|names|, _ => Peer([], false, [], None, None, false)))
  }

  // ----- steps -----

  datatype Event =
    | TakeMap | Create | AnswerFails | TakeRoom | Refuse | Join | JoinFails
    | LookUpRoom | TakeOwn
    | CopyRead(to: nat, k: nat) | CopyWrite(to: nat, k: nat) | CopyEof(to: nat) | CopyFails(to: nat)
    | EndRelay | Remove
    | KeepLook | KeepTake | PingWrite(k: nat) | PingDone | PingFails
    | Arrives(bytes: Bytes) | Closes

  function SetPc(s: Relay, h: nat, pc: Pc): Relay
    requires h < |s.pcs|
  {
    s.(pcs := s.pcs[h := pc])
  }

  function SetHolder(s: Relay, r: nat, holder: Option<nat>): Relay
    requires r < |s.rooms|
  {
    s.(rooms := s.rooms[r := s.rooms[r].(holder := holder)])
  }

  function SetPeer(s: Relay, x: nat, peer: Peer): Relay
    requires x < |s.peers|
  {
    s.(peers := s.peers[x := peer])
  }

  /** What `relay` is given: both sessions, bridged with each other. */
  function Bridge(peers: seq<Peer>, first: nat, second: nat): seq<Peer>
    requires first < |peers| && second < |peers|
  {
    var fed := peers[first := peers[first].(feed := Some(Feed(second, 0, [], Open)))];
    fed[second := fed[second].(feed := Some(Feed(first, 0, [], Open)))]
  }

  ghost predicate InRoom(s: Relay, r: nat) {
    r < |s.rooms|
  }

  /** `x` is one end of the bridge that the handler at `pc` runs. */
  ghost predicate Bridging(s: Relay, pc: Pc, x: nat) {
    pc.Relaying? && (x == pc.first || x == pc.second)
    && x < |s.peers| && s.peers[x].feed.Some? && s.peers[x].feed.value.from < |s.peers|
  }

  ghost predicate Step(names: seq<string>, s: Relay, h: nat, e: Event, s': Relay)
  {
    h < |s.pcs| && h < |names| && h < |s.peers| &&
    var pc, name := s.pcs[h], names[h];
    match e
    case TakeMap =>
      pc == WantMap && s.holder.None?
      && s' == SetPc(s, h, if name in s.table then WantRoom(s.table[name]) else Creating).(holder := Some(h))
    case Create =>
      pc == Creating
      && s' == SetPeer(SetPc(s, h, LookUp), h, s.peers[h].(place := Some(Place(|s.rooms|, First))))
               .(rooms := s.rooms + [Room(name, Some(h), None, false, None)],
                 table := s.table[name := |s.rooms|], holder := None)
    case AnswerFails =>
      pc == Creating && s' == SetPc(s, h, Done).(holder := None)
    case TakeRoom =>
      pc.WantRoom? && InRoom(s, pc.room) && s.rooms[pc.room].holder.None?
      && var pc' := if IsFull(s.rooms[pc.room]) then Refusing(pc.room) else Joining(pc.room);
         s' == SetHolder(SetPc(s, h, pc'), pc.room, Some(h))
    case Refuse =>
      pc.Refusing? && InRoom(s, pc.room) && s' == SetHolder(SetPc(s, h, Done), pc.room, None).(holder := None)
    case Join =>
      pc.Joining? && InRoom(s, pc.room)
      && s' == SetPeer(SetPc(s, h, LookUp), h, s.peers[h].(place := Some(Place(pc.room, Second))))
               .(rooms := s.rooms[pc.room := s.rooms[pc.room].(second := Some(h), holder := None)], holder := None)
    case JoinFails =>
      pc.Joining? && InRoom(s, pc.room) && s' == SetHolder(SetPc(s, h, Done), pc.room, None).(holder := None)
    case LookUpRoom =>
      pc == LookUp && s.holder.None? && s' == SetPc(s, h, if name in s.table then WantOwn(s.table[name]) else Done)
    case TakeOwn =>
      pc.WantOwn? && InRoom(s, pc.room) && s.rooms[pc.room].holder.None? &&
      var room := s.rooms[pc.room];
      if !IsFull(room) then s' == SetPc(s, h, KeepLookUp)
      else if room.second.None? || room.first.None? then s' == SetPc(s, h, Panicked)
      else
        room.first.value < |s.peers| && room.second.value < |s.peers|
        && s' == SetPc(s, h, Relaying(pc.room, room.first.value, room.second.value))
                 .(rooms := s.rooms[pc.room := room.(first := None, second := None, holder := Some(h))],
                   peers := Bridge(s.peers, room.first.value, room.second.value))
    case CopyRead(x, k) =>
      Bridging(s, pc, x) &&
      var feed := s.peers[x].feed.value; var input := s.peers[feed.from].input;
      feed.status.Open? && feed.buffer == [] && 0 < k <= COPY_BUFFER && feed.read + k <= |input|
      && var feed' := feed.(read := feed.read + k, buffer := input[feed.read..feed.read + k]);
         s' == SetPeer(s, x, s.peers[x].(feed := Some(feed')))
    case CopyWrite(x, k) =>
      Bridging(s, pc, x) &&
      var feed := s.peers[x].feed.value;
      feed.status.Open? && 0 < k <= |feed.buffer| && !s.peers[x].broken
      && s' == SetPeer(s, x, s.peers[x].(output := s.peers[x].output + feed.buffer[..k],
                                         feed := Some(feed.(buffer := feed.buffer[k..]))))
    case CopyEof(x) =>
      Bridging(s, pc, x) &&
      var feed := s.peers[x].feed.value; var from := s.peers[feed.from];
      feed.status.Open? && feed.buffer == [] && feed.read == |from.input| && from.closed
      && s' == SetPeer(s, x, s.peers[x].(feed := Some(feed.(status := AtEof))))
    case CopyFails(x) =>
      Bridging(s, pc, x) &&
      var feed := s.peers[x].feed.value;
      feed.status.Open? && s' == SetPeer(s, x, s.peers[x].(feed := Some(feed.(status := Broken))))
    case EndRelay =>
      pc.Relaying? && Bridging(s, pc, pc.first) && Bridging(s, pc, pc.second) && InRoom(s, pc.room) &&
      var a, b := s.peers[pc.first].feed.value.status, s.peers[pc.second].feed.value.status;
      (a.Broken? || b.Broken? || (a.AtEof? && b.AtEof?))
      && s' == SetPc(s, h, WantRemove(pc.room, pc.first, pc.second))
               .(rooms := s.rooms[pc.room := s.rooms[pc.room].(first := None, second := None)])
    case Remove =>
      pc.WantRemove? && InRoom(s, pc.room) && s.holder.None?
      && s' == SetHolder(SetPc(s, h, Done), pc.room, None).(table := s.table - {name})
    case KeepLook =>
      pc == KeepLookUp && s.holder.None? && s' == SetPc(s, h, if name in s.table then KeepWait(s.table[name]) else Done)
    case KeepTake =>
      pc.KeepWait? && InRoom(s, pc.room) && s.rooms[pc.room].holder.None? &&
      if s.rooms[pc.room].first.Some? then
        s' == SetHolder(SetPc(s, h, Pinging(pc.room, s.rooms[pc.room].first.value, PING)), pc.room, Some(h))
      else
        s' == SetPc(s, h, Done)
    case PingWrite(k) =>
      pc.Pinging? && pc.session < |s.peers| && 0 < k <= |pc.rest| && !s.peers[pc.session].broken &&
      var peer := s.peers[pc.session];
      s' == SetPeer(SetPc(s, h, pc.(rest := pc.rest[k..])), pc.session, peer.(output := peer.output + pc.rest[..k]))
    case PingDone =>
      pc.Pinging? && InRoom(s, pc.room) && pc.rest == []
      && s' == SetHolder(SetPc(s, h, KeepWait(pc.room)), pc.room, None)
    case PingFails =>
      pc.Pinging? && InRoom(s, pc.room) && pc.session < |s.peers| && pc.rest != []
      && s' == SetPeer(SetHolder(SetPc(s, h, Done), pc.room, None), pc.session, s.peers[pc.session].(broken := true))
    case Arrives(bytes) =>
      !s.peers[h].closed && s' == SetPeer(s, h, s.peers[h].(input := s.peers[h].input + bytes))
    case Closes =>
      s' == SetPeer(s, h, s.peers[h].(closed := true))
  }

  ghost predicate Next(names: seq<string>, s: Relay, s': Relay) {
    exists h: nat, e :: Step(names, s, h, e, s')
  }

  ghost predicate IsRun(names: seq<string>, run: seq<Relay>) {
    && |run| > 0 && run[0] == Start(names)
    && forall i, j :: 0 <= i < |run| && j == i + 1 < |run| ==> Next(names, run[i], run[j])
  }

  ghost predicate Reachable(names: seq<string>, s: Relay) {
    exists run: seq<Relay> :: IsRun(names, run) && run[|run| - 1] == s
  }

  // ----- locks and rooms -----

  /** `r` is what the map gives for its name. */
  ghost predicate Current(s: Relay, r: nat) {
    r < |s.rooms| && s.rooms[r].name in s.table && s.table[s.rooms[r].name] == r
  }

  predicate Unseated(peer: Peer) {
    peer.place.None? && peer.feed.None?
  }

  predicate Vacated(room: Room) {
    room.first.None? && room.second.None?
  }

  ghost predicate Seated(names: seq<string>, s: Relay, x: nat, r: nat, slot: Slot) {
    x < |s.peers| && x < |names| && s.peers[x].place == Some(Place(r, slot))
    && InRoom(s, r) && names[x] == s.rooms[r].name
  }

  ghost predicate RoomInv(names: seq<string>, s: Relay, r: nat)
    requires r < |s.rooms|
  {
    var room := s.rooms[r];
    && !room.running
    && (room.holder.Some? ==> room.holder.value < |s.pcs| && HoldsRoom(s.pcs[room.holder.value], r))
    && (room.first.Some? ==>
          Current(s, r) && Seated(names, s, room.first.value, r, First) && s.peers[room.first.value].feed.None?)
    && (room.second.Some? ==>
          room.first.Some? && Seated(names, s, room.second.value, r, Second) && s.peers[room.second.value].feed.None?)
    && (Current(s, r) && room.first.None? ==>
          room.holder.Some? && (s.pcs[room.holder.value].Relaying? || s.pcs[room.holder.value].WantRemove?))
  }

  ghost predicate LockInv(s: Relay, h: nat)
    requires h < |s.pcs|
  {
    && (HoldsMap(s.pcs[h]) <==> s.holder == Some(h))
    && (forall r: nat :: HoldsRoom(s.pcs[h], r) ==> r < |s.rooms| && s.rooms[r].holder == Some(h))
  }

  ghost predicate HandlerInv(names: seq<string>, s: Relay, h: nat)
    requires h < |s.pcs| && h < |s.peers| && h < |names|
  {
    var pc := s.pcs[h];
    match pc
    case WantMap => Unseated(s.peers[h])
    case Creating => Unseated(s.peers[h]) && names[h] !in s.table
    case WantRoom(r) => Unseated(s.peers[h]) && Current(s, r) && s.rooms[r].name == names[h]
    case Refusing(r) =>
      Unseated(s.peers[h]) && Current(s, r) && s.rooms[r].name == names[h]
      && s.rooms[r].first.Some? && s.rooms[r].second.Some?
    case Joining(r) =>
      Unseated(s.peers[h]) && Current(s, r) && s.rooms[r].name == names[h]
      && s.rooms[r].first.Some? && s.rooms[r].second.None?
    case WantOwn(r) => InRoom(s, r) && s.rooms[r].name == names[h]
    case KeepWait(r) => InRoom(s, r) && s.rooms[r].name == names[h]
    case Relaying(r, f, g) =>
      Current(s, r) && s.rooms[r].name == names[h] && Vacated(s.rooms[r])
      && Seated(names, s, f, r, First) && Seated(names, s, g, r, Second)
    case WantRemove(r, f, g) =>
      Current(s, r) && s.rooms[r].name == names[h] && Vacated(s.rooms[r])
      && Seated(names, s, f, r, First) && Seated(names, s, g, r, Second)
    case Pinging(r, x, _) => InRoom(s, r) && s.rooms[r].name == names[h] && s.rooms[r].first == Some(x)
    case Panicked => false
    case _ => true
  }

  ghost predicate TableInv(s: Relay) {
    && (forall name :: name in s.table ==> s.table[name] < |s.rooms| && s.rooms[s.table[name]].name == name)
    && (s.holder.Some? ==> s.holder.value < |s.pcs| && HoldsMap(s.pcs[s.holder.value]))
  }

  ghost predicate Sized(names: seq<string>, s: Relay) {
    |s.pcs| == |names| && |s.peers| == |names|
  }

  /** The structure of the relay: who holds which lock, what the map and the rooms
      say, and where each handler may be. */
  ghost predicate RelayInv(names: seq<string>, s: Relay) {
    && Sized(names, s)
    && TableInv(s)
    && (forall h :: 0 <= h < |s.pcs| ==> LockInv(s, h))
    && (forall h :: 0 <= h < |s.pcs| ==> HandlerInv(names, s, h))
    && (forall r :: 0 <= r < |s.rooms| ==> RoomInv(names, s, r))
  }
}
