/** What the relay sends to its clients: pings, then what the peer has sent. */
module RoomStreams {
  import opened Bytes
  import opened Options
  import opened Rooms

  function Repeated(unit: Bytes, k: nat): Bytes {
    if k == 0 then [] else Repeated(unit, k - 1) + unit
  }

  ghost predicate RepeatsThen(unit: Bytes, output: Bytes, tail: Bytes) {
    exists k: nat :: output == Repeated(unit, k) + tail
  }

  /** Whole pings, then `tail`. */
  ghost predicate PingsThen(output: Bytes, tail: Bytes) {
    RepeatsThen(PING, output, tail)
  }

  ghost predicate CutPing(output: Bytes) {
    exists n: nat :: n <= |PING| && PingsThen(output, PING[..n])
  }

  /** The holder of the client's room is writing a ping to it. */
  ghost predicate BeingPinged(s: Relay, x: nat)
    requires x < |s.peers|
  {
    s.peers[x].place.Some? &&
    var r := s.peers[x].place.value.room;
    s.peers[x].place.value.slot.First? && r < |s.rooms| && s.rooms[r].holder.Some?
    && s.rooms[r].holder.value < |s.pcs|
    && s.pcs[s.rooms[r].holder.value].Pinging? && s.pcs[s.rooms[r].holder.value].session == x
  }

  function Other(slot: Slot): Slot {
    if slot.First? then Second else First
  }

  /** The bytes a feed has written so far. */
  function Written(input: Bytes, feed: Feed): Bytes {
    if |feed.buffer| <= feed.read <= |input| then input[..feed.read - |feed.buffer|] else []
  }

  ghost predicate FeedInv(peers: seq<Peer>, x: nat)
    requires x < |peers| && peers[x].feed.Some?
  {
    var feed := peers[x].feed.value;
    && feed.from < |peers| && feed.from != x
    && peers[x].place.Some?
    && peers[feed.from].place == Some(Place(peers[x].place.value.room, Other(peers[x].place.value.slot)))
    && peers[feed.from].feed.Some? && peers[feed.from].feed.value.from == x
    && |feed.buffer| <= feed.read <= |peers[feed.from].input| && |feed.buffer| <= 1024
    && feed.buffer == peers[feed.from].input[feed.read - |feed.buffer|..feed.read]
    && (feed.status.AtEof? ==> feed.buffer == [] && feed.read == |peers[feed.from].input| && peers[feed.from].closed)
    && (if peers[x].broken then CutPing(peers[x].output) && feed.read == |feed.buffer|
        else PingsThen(peers[x].output, Written(peers[feed.from].input, feed)))
  }

  ghost predicate CleanOutput(peer: Peer) {
    if peer.broken then CutPing(peer.output) else PingsThen(peer.output, [])
  }

  ghost predicate PeerInv(s: Relay, x: nat)
    requires x < |s.peers|
  {
    if s.peers[x].feed.Some? then FeedInv(s.peers, x)
    else CleanOutput(s.peers[x]) || (BeingPinged(s, x) && !s.peers[x].broken)
  }

  ghost predicate PingInv(s: Relay, h: nat)
    requires h < |s.pcs|
  {
    s.pcs[h].Pinging? ==>
      var Pinging(_, x, rest) := s.pcs[h];
      && x < |s.peers| && |rest| <= |PING| && rest == PING[|PING| - |rest|..]
      && s.peers[x].feed.None?
      && (!s.peers[x].broken ==> PingsThen(s.peers[x].output, PING[..|PING| - |rest|]))
  }

  ghost predicate StreamInv(s: Relay) {
    && (forall x :: 0 <= x < |s.peers| ==> PeerInv(s, x))
    && (forall h :: 0 <= h < |s.pcs| ==> PingInv(s, h))
  }

  lemma StartStreams(names: seq<string>)
    ensures StreamInv(Start(names))
  {
    assert [] == Repeated(PING, 0) + [];
  }

  // ----- steps that write nothing -----

  lemma QuietKeeps(s: Relay, s': Relay)
    requires StreamInv(s) && s'.peers == s.peers
    requires forall x :: 0 <= x < |s.peers| && BeingPinged(s, x) ==> BeingPinged(s', x)
    requires forall h :: 0 <= h < |s'.pcs| ==> PingInv(s', h)
    ensures StreamInv(s')
  {
    forall x | 0 <= x < |s'.peers|
      ensures PeerInv(s', x)
    {
      assert PeerInv(s, x);
    }
  }

  predicate IsQuiet(e: Event) {
    e.TakeMap? || e.AnswerFails? || e.LookUpRoom? || e.KeepLook? || e.EndRelay?
    || e.TakeRoom? || e.Refuse? || e.JoinFails? || e.Remove?
  }

  lemma QuietStepKeeps(names: seq<string>, s: Relay, h: nat, e: Event, s': Relay)
    requires RelayInv(names, s) && StreamInv(s) && IsQuiet(e) && Step(names, s, h, e, s')
    ensures StreamInv(s')
  {
    forall x | 0 <= x < |s.peers| && BeingPinged(s, x)
      ensures BeingPinged(s', x)
    {
      assert LockInv(s, h) && RoomInv(names, s, s.peers[x].place.value.room);
      QuietKeepsPinged(names, s, h, e, s', x);
    }
    forall g | 0 <= g < |s'.pcs|
      ensures PingInv(s', g)
    {
      assert PingInv(s, g);
      QuietKeepsPinger(names, s, h, e, s', g);
    }
    QuietPeers(names, s, h, e, s');
    QuietKeeps(s, s');
  }

  lemma QuietPeers(names: seq<string>, s: Relay, h: nat, e: Event, s': Relay)
    requires IsQuiet(e) && Step(names, s, h, e, s')
    ensures s'.peers == s.peers
  {
  }

  lemma QuietKeepsPinged(names: seq<string>, s: Relay, h: nat, e: Event, s': Relay, x: nat)
    requires IsQuiet(e) && Step(names, s, h, e, s') && x < |s.peers| && BeingPinged(s, x) && LockInv(s, h)
    ensures x < |s'.peers| && BeingPinged(s', x)
  {
  }

  lemma QuietKeepsPinger(names: seq<string>, s: Relay, h: nat, e: Event, s': Relay, g: nat)
    requires IsQuiet(e) && Step(names, s, h, e, s') && g < |s.pcs| && PingInv(s, g)
    ensures g < |s'.pcs| && PingInv(s', g)
  {
  }

  /** Taking a seat, in a room that nobody pings. */
  lemma SeatingKeeps(names: seq<string>, s: Relay, h: nat, e: Event, s': Relay)
    requires RelayInv(names, s) && StreamInv(s) && (e.Create? || e.Join?) && Step(names, s, h, e, s')
    ensures StreamInv(s')
  {
    assert LockInv(s, h) && HandlerInv(names, s, h) && PeerInv(s, h);
    forall x | 0 <= x < |s'.peers|
      ensures PeerInv(s', x)
    {
      assert PeerInv(s, x);
      if x != h {
        SeatingKeepsPeer(names, s, h, e, s', x);
      }
    }
    forall g | 0 <= g < |s'.pcs|
      ensures PingInv(s', g)
    {
      assert PingInv(s, g);
      SeatingKeepsPinger(names, s, h, e, s', g);
    }
  }

  lemma SeatingKeepsPeer(names: seq<string>, s: Relay, h: nat, e: Event, s': Relay, x: nat)
    requires (e.Create? || e.Join?) && Step(names, s, h, e, s') && x < |s.peers| && x != h && PeerInv(s, x)
    requires LockInv(s, h) && Unseated(s.peers[h])
    ensures x < |s'.peers| && PeerInv(s', x)
  {
    if s.peers[x].feed.None? && BeingPinged(s, x) {
      assert BeingPinged(s', x);
    }
  }

  lemma SeatingKeepsPinger(names: seq<string>, s: Relay, h: nat, e: Event, s': Relay, g: nat)
    requires (e.Create? || e.Join?) && Step(names, s, h, e, s') && g < |s.pcs| && PingInv(s, g)
    ensures g < |s'.pcs| && PingInv(s', g)
  {
  }

  // ----- pings -----

  lemma PrefixGrows(frame: Bytes, a: nat, k: nat)
    requires a + k <= |frame|
    ensures frame[..a] + frame[a..][..k] == frame[..a + k]
  {
  }

  lemma TailGrows(unit: Bytes, output: Bytes, tail: Bytes, more: Bytes)
    requires RepeatsThen(unit, output, tail)
    ensures RepeatsThen(unit, output + more, tail + more)
  {
    var n: nat :| output == Repeated(unit, n) + tail;
    assert output + more == Repeated(unit, n) + (tail + more);
  }

  lemma UnitComplete(unit: Bytes, output: Bytes)
    requires RepeatsThen(unit, output, unit)
    ensures RepeatsThen(unit, output, [])
  {
    var n: nat :| output == Repeated(unit, n) + unit;
    assert output == Repeated(unit, n + 1) + [];
  }

  lemma PingsExtend(output: Bytes, rest: Bytes, k: nat)
    requires |rest| <= |PING| && rest == PING[|PING| - |rest|..] && k <= |rest|
    requires PingsThen(output, PING[..|PING| - |rest|])
    ensures PingsThen(output + rest[..k], PING[..|PING| - |rest| + k])
  {
    TailGrows(PING, output, PING[..|PING| - |rest|], rest[..k]);
    PrefixGrows(PING, |PING| - |rest|, k);
  }

  lemma PingComplete(output: Bytes)
    requires PingsThen(output, PING[..|PING|])
    ensures PingsThen(output, [])
  {
    assert PING[..|PING|] == PING;
    UnitComplete(PING, output);
  }

  /** A step of the handler that pings `x` leaves every other client as it was. */
  lemma OthersKeep(names: seq<string>, s: Relay, h: nat, x: nat, s': Relay)
    requires RelayInv(names, s) && StreamInv(s) && h < |s.pcs| && s.pcs[h].Pinging? && s.pcs[h].session == x
    requires |s'.pcs| == |s.pcs| && |s'.peers| == |s.peers| && |s'.rooms| == |s.rooms|
    requires forall g :: 0 <= g < |s.pcs| && g != h ==> s'.pcs[g] == s.pcs[g]
    requires forall y :: 0 <= y < |s.peers| && y != x ==> s'.peers[y] == s.peers[y]
    requires forall q :: 0 <= q < |s.rooms| && q != s.pcs[h].room ==> s'.rooms[q] == s.rooms[q]
    ensures forall y :: 0 <= y < |s'.peers| && y != x ==> PeerInv(s', y)
    ensures forall g :: 0 <= g < |s'.pcs| && g != h ==> PingInv(s', g)
  {
    var r := s.pcs[h].room;
    assert LockInv(s, h) && HandlerInv(names, s, h) && RoomInv(names, s, r) && PingInv(s, h);
    forall y | 0 <= y < |s'.peers| && y != x
      ensures PeerInv(s', y)
    {
      assert PeerInv(s, y);
    }
    forall g | 0 <= g < |s'.pcs| && g != h
      ensures PingInv(s', g)
    {
      assert PingInv(s, g) && LockInv(s, g) && HandlerInv(names, s, g);
      if s.pcs[g].Pinging? {
        assert RoomInv(names, s, s.pcs[g].room);
      }
    }
  }

  lemma PingWriteKeeps(names: seq<string>, s: Relay, h: nat, k: nat, s': Relay)
    requires RelayInv(names, s) && StreamInv(s) && Step(names, s, h, PingWrite(k), s')
    ensures StreamInv(s')
  {
    var Pinging(r, x, rest) := s.pcs[h];
    assert LockInv(s, h) && HandlerInv(names, s, h) && RoomInv(names, s, r) && PingInv(s, h);
    OthersKeep(names, s, h, x, s');
    PingsExtend(s.peers[x].output, rest, k);
    assert rest[k..] == PING[|PING| - |rest[k..]|..];
    assert BeingPinged(s', x);
    assert PingInv(s', h);
  }

  lemma PingDoneKeeps(names: seq<string>, s: Relay, h: nat, s': Relay)
    requires RelayInv(names, s) && StreamInv(s) && Step(names, s, h, PingDone, s')
    ensures StreamInv(s')
  {
    var Pinging(r, x, rest) := s.pcs[h];
    assert PingInv(s, h) && PeerInv(s, x);
    OthersKeep(names, s, h, x, s');
    if !s.peers[x].broken {
      PingComplete(s.peers[x].output);
    }
  }

  lemma PingFailsKeeps(names: seq<string>, s: Relay, h: nat, s': Relay)
    requires RelayInv(names, s) && StreamInv(s) && Step(names, s, h, PingFails, s')
    ensures StreamInv(s')
  {
    var Pinging(r, x, rest) := s.pcs[h];
    assert PingInv(s, h) && PeerInv(s, x);
    OthersKeep(names, s, h, x, s');
    assert |PING| - |rest| <= |PING|;
  }

  lemma KeepTakeKeeps(names: seq<string>, s: Relay, h: nat, s': Relay)
    requires RelayInv(names, s) && StreamInv(s) && Step(names, s, h, KeepTake, s')
    ensures StreamInv(s')
  {
    var r := s.pcs[h].room;
    assert HandlerInv(names, s, h) && LockInv(s, h) && RoomInv(names, s, r);
    forall x | 0 <= x < |s.peers| && BeingPinged(s, x)
      ensures BeingPinged(s', x)
    {
      assert RoomInv(names, s, s.peers[x].place.value.room);
    }
    forall g | 0 <= g < |s'.pcs|
      ensures PingInv(s', g)
    {
      assert PingInv(s, g);
      if g == h && s.rooms[r].first.Some? {
        var x := s.rooms[r].first.value;
        assert PeerInv(s, x);
        assert PING[|PING| - |PING|..] == PING && PING[..0] == [];
      }
    }
    QuietKeeps(s, s');
  }

  // ----- bridges -----

  /** A room that is taken for a relay has nobody pinging its first client. */
  lemma TakeOwnKeeps(names: seq<string>, s: Relay, h: nat, s': Relay)
    requires RelayInv(names, s) && StreamInv(s) && Step(names, s, h, TakeOwn, s')
    ensures StreamInv(s')
  {
    var r := s.pcs[h].room;
    assert HandlerInv(names, s, h) && LockInv(s, h) && RoomInv(names, s, r);
    if !IsFull(s.rooms[r]) {
      forall g | 0 <= g < |s'.pcs|
        ensures PingInv(s', g)
      {
        assert PingInv(s, g);
      }
      forall x | 0 <= x < |s.peers| && BeingPinged(s, x)
        ensures BeingPinged(s', x)
      {
        assert RoomInv(names, s, s.peers[x].place.value.room);
      }
      QuietKeeps(s, s');
    } else {
      TakeBothKeeps(names, s, h, r, s.rooms[r].first.value, s.rooms[r].second.value, s');
    }
  }

  lemma TakeBothKeeps(names: seq<string>, s: Relay, h: nat, r: nat, f: nat, g: nat, s': Relay)
    requires RelayInv(names, s) && StreamInv(s) && h < |s.pcs| && r < |s.rooms| && f < |s.peers| && g < |s.peers|
    requires s.pcs[h] == WantOwn(r) && s.rooms[r].holder.None?
    requires s.rooms[r].first == Some(f) && s.rooms[r].second == Some(g)
    requires s' == SetPc(s, h, Relaying(r, f, g)).(
                     rooms := s.rooms[r := s.rooms[r].(first := None, second := None, holder := Some(h))],
                     peers := Bridge(s.peers, f, g))
    ensures StreamInv(s')
  {
    assert RoomInv(names, s, r) && f != g;
    assert PeerInv(s, f) && PeerInv(s, g);
    UnpingedIsClean(s, f);
    UnpingedIsClean(s, g);
    BridgeStarts(s.peers, r, f, g);
    BystandersKeep(names, s, h, r, f, g, s');
    PingersKeep(names, s, h, r, f, g, s');
    forall x | 0 <= x < |s'.peers|
      ensures PeerInv(s', x)
    {
      if x == f || x == g {
        assert FeedInv(s'.peers, x);
      }
    }
  }

  lemma UnpingedIsClean(s: Relay, x: nat)
    requires x < |s.peers| && s.peers[x].feed.None? && PeerInv(s, x)
    requires s.peers[x].place.Some? && s.peers[x].place.value.room < |s.rooms|
    requires s.rooms[s.peers[x].place.value.room].holder.None?
    ensures CleanOutput(s.peers[x])
  {
  }

  lemma BridgeStarts(peers: seq<Peer>, r: nat, f: nat, g: nat)
    requires f < |peers| && g < |peers| && f != g
    requires peers[f].place == Some(Place(r, First)) && peers[g].place == Some(Place(r, Second))
    requires CleanOutput(peers[f]) && CleanOutput(peers[g])
    ensures BridgedAt(Bridge(peers, f, g), f) && BridgedAt(Bridge(peers, f, g), g)
  {
    var bridged := Bridge(peers, f, g);
    BridgedClean(peers, f, g);
    BridgedPair(peers, r, f, g);
    NothingWritten(bridged[g].input, g);
    NothingWritten(bridged[f].input, f);
    FeedStarts(bridged, f, g);
    FeedStarts(bridged, g, f);
  }

  ghost predicate BridgedAt(peers: seq<Peer>, x: nat) {
    x < |peers| && peers[x].feed.Some? && FeedInv(peers, x)
  }

  lemma BridgedPair(peers: seq<Peer>, r: nat, f: nat, g: nat)
    requires f < |peers| && g < |peers| && f != g
    requires peers[f].place == Some(Place(r, First)) && peers[g].place == Some(Place(r, Second))
    ensures var b := Bridge(peers, f, g);
            && |b| == |peers| && b[f].feed == Some(Feed(g, 0, [], Open)) && b[g].feed == Some(Feed(f, 0, [], Open))
            && b[f].place == Some(Place(r, First)) && b[g].place == Some(Place(r, Second))
  {
  }

  lemma BridgedClean(peers: seq<Peer>, f: nat, g: nat)
    requires f < |peers| && g < |peers| && f != g && CleanOutput(peers[f]) && CleanOutput(peers[g])
    ensures CleanOutput(Bridge(peers, f, g)[f]) && CleanOutput(Bridge(peers, f, g)[g])
  {
    assert Bridge(peers, f, g)[f].output == peers[f].output;
  }

  /** Whoever is pinging goes on pinging: not a client of the taken room. */
  lemma PingersKeep(names: seq<string>, s: Relay, h: nat, r: nat, f: nat, g: nat, s': Relay)
    requires RelayInv(names, s) && StreamInv(s) && h < |s.pcs| && r < |s.rooms| && f < |s.peers| && g < |s.peers|
    requires s.pcs[h] == WantOwn(r) && s.rooms[r].holder.None?
    requires s.rooms[r].first == Some(f) && s.rooms[r].second == Some(g)
    requires s'.pcs == s.pcs[h := Relaying(r, f, g)] && s'.peers == Bridge(s.peers, f, g)
    ensures forall k :: 0 <= k < |s'.pcs| ==> PingInv(s', k)
  {
    assert RoomInv(names, s, r);
    forall k | 0 <= k < |s'.pcs|
      ensures PingInv(s', k)
    {
      assert PingInv(s, k);
      if s.pcs[k].Pinging? {
        assert LockInv(s, k) && HandlerInv(names, s, k) && RoomInv(names, s, s.pcs[k].room);
      }
    }
  }

  lemma BystandersKeep(names: seq<string>, s: Relay, h: nat, r: nat, f: nat, g: nat, s': Relay)
    requires RelayInv(names, s) && StreamInv(s) && h < |s.pcs| && r < |s.rooms| && f < |s.peers| && g < |s.peers|
    requires f != g
    requires s.pcs[h] == WantOwn(r) && s.rooms[r].holder.None?
    requires s.rooms[r].first == Some(f) && s.rooms[r].second == Some(g)
    requires s' == SetPc(s, h, Relaying(r, f, g)).(
                     rooms := s.rooms[r := s.rooms[r].(first := None, second := None, holder := Some(h))],
                     peers := Bridge(s.peers, f, g))
    ensures forall x :: 0 <= x < |s'.peers| && x != f && x != g ==> PeerInv(s', x)
  {
    assert RoomInv(names, s, r);
    forall x | 0 <= x < |s'.peers| && x != f && x != g
      ensures PeerInv(s', x)
    {
      assert PeerInv(s, x);
      if s.peers[x].feed.Some? {
        assert FeedInv(s.peers, x);
      } else if BeingPinged(s, x) {
        assert RoomInv(names, s, s.peers[x].place.value.room);
      }
    }
  }

  lemma NothingWritten(input: Bytes, from: nat)
    ensures Written(input, Feed(from, 0, [], Open)) == [] && input[0..0] == []
  {
  }

  lemma FeedStarts(peers: seq<Peer>, x: nat, from: nat)
    requires x < |peers| && from < |peers| && from != x
    requires peers[x].feed == Some(Feed(from, 0, [], Open))
    requires peers[from].feed.Some? && peers[from].feed.value.from == x
    requires peers[x].place.Some?
    requires peers[from].place == Some(Place(peers[x].place.value.room, Other(peers[x].place.value.slot)))
    requires CleanOutput(peers[x])
    requires Written(peers[from].input, peers[x].feed.value) == [] && peers[from].input[0..0] == []
    ensures BridgedAt(peers, x)
  {
  }

  /** Steps on one client's streams. */
  lemma OnePeerKeeps(s: Relay, x: nat, s': Relay)
    requires StreamInv(s) && x < |s.peers| && |s'.peers| == |s.peers| && s' == SetPeer(s, x, s'.peers[x])
    requires s'.peers[x].place == s.peers[x].place && (s'.peers[x].feed.None? <==> s.peers[x].feed.None?)
    requires s'.peers[x].broken == s.peers[x].broken
    requires s.peers[x].feed.None? ==> s'.peers[x].output == s.peers[x].output
    requires forall y :: 0 <= y < |s.peers| && s.peers[y].feed.Some? ==> FeedInv(s'.peers, y)
    ensures StreamInv(s')
  {
    forall y | 0 <= y < |s'.peers|
      ensures PeerInv(s', y)
    {
      assert PeerInv(s, y);
    }
    forall h | 0 <= h < |s'.pcs|
      ensures PingInv(s', h)
    {
      assert PingInv(s, h);
    }
  }

  lemma OtherFeedKeeps(peers: seq<Peer>, x: nat, peer: Peer, y: nat)
    requires x < |peers| && y < |peers| && y != x && peers[y].feed.Some? && FeedInv(peers, y)
    requires peers[x].feed.Some? && peer.feed.Some? && peer.feed.value.from == peers[x].feed.value.from
    requires peer.place == peers[x].place && peer.input == peers[x].input && peer.closed == peers[x].closed
    ensures FeedInv(peers[x := peer], y)
  {
  }

  lemma FeedStepKeeps(names: seq<string>, s: Relay, h: nat, e: Event, s': Relay)
    requires StreamInv(s) && Step(names, s, h, e, s')
    requires e.CopyRead? || e.CopyWrite? || e.CopyEof? || e.CopyFails?
    ensures StreamInv(s')
  {
    var x := e.to;
    assert PeerInv(s, x);
    FeedAdvances(names, s, h, e, s');
    forall y | 0 <= y < |s.peers| && s.peers[y].feed.Some? && y != x
      ensures FeedInv(s'.peers, y)
    {
      assert PeerInv(s, y);
      OtherFeedKeeps(s.peers, x, s'.peers[x], y);
    }
    OnePeerKeeps(s, x, s');
  }

  lemma FeedAdvances(names: seq<string>, s: Relay, h: nat, e: Event, s': Relay)
    requires Step(names, s, h, e, s') && (e.CopyRead? || e.CopyWrite? || e.CopyEof? || e.CopyFails?)
    requires e.to < |s.peers| && s.peers[e.to].feed.Some? && FeedInv(s.peers, e.to)
    ensures FeedInv(s'.peers, e.to)
  {
    if e.CopyRead? {
      ReadAdvances(s.peers, e.to, e.k);
    } else if e.CopyWrite? {
      WriteAdvances(s.peers, e.to, e.k);
    } else {
      StatusAdvances(s.peers, e.to, if e.CopyEof? then AtEof else Broken);
    }
  }

  lemma StatusAdvances(peers: seq<Peer>, x: nat, status: Status)
    requires x < |peers| && peers[x].feed.Some? && FeedInv(peers, x)
    requires var feed := peers[x].feed.value;
             status.AtEof? ==> feed.buffer == [] && feed.read == |peers[feed.from].input| && peers[feed.from].closed
    ensures FeedInv(peers[x := peers[x].(feed := Some(peers[x].feed.value.(status := status)))], x)
  {
  }

  lemma ReadAdvances(peers: seq<Peer>, x: nat, k: nat)
    requires x < |peers| && peers[x].feed.Some? && FeedInv(peers, x)
    requires var feed := peers[x].feed.value;
             feed.buffer == [] && feed.status.Open? && k <= 1024 && feed.read + k <= |peers[feed.from].input|
    ensures var feed := peers[x].feed.value;
            var feed' := feed.(read := feed.read + k, buffer := peers[feed.from].input[feed.read..feed.read + k]);
            FeedInv(peers[x := peers[x].(feed := Some(feed'))], x)
  {
    var feed := peers[x].feed.value;
    assert |peers[feed.from].input[feed.read..feed.read + k]| == k;
  }

  /** Copying moves bytes from the input through the buffer to the output. */
  lemma WriteAdvances(peers: seq<Peer>, x: nat, k: nat)
    requires x < |peers| && peers[x].feed.Some? && FeedInv(peers, x)
    requires peers[x].feed.value.status.Open? && k <= |peers[x].feed.value.buffer| && !peers[x].broken
    ensures var feed := peers[x].feed.value;
            FeedInv(peers[x := peers[x].(output := peers[x].output + feed.buffer[..k],
                                         feed := Some(feed.(buffer := feed.buffer[k..])))], x)
  {
    var feed := peers[x].feed.value;
    var input, done := peers[feed.from].input, feed.read - |feed.buffer|;
    assert feed.buffer[k..] == input[done + k..feed.read];
    SliceGrows(input, done, feed.read, k);
    TailGrows(PING, peers[x].output, input[..done], feed.buffer[..k]);
  }

  lemma ArrivalKeeps(names: seq<string>, s: Relay, h: nat, e: Event, s': Relay)
    requires StreamInv(s) && (e.Arrives? || e.Closes?) && Step(names, s, h, e, s')
    ensures StreamInv(s')
  {
    var more := if e.Arrives? then e.bytes else [];
    assert s.peers[h].input + [] == s.peers[h].input;
    assert s'.peers[h] == s.peers[h].(input := s.peers[h].input + more, closed := e.Closes? || s.peers[h].closed);
    forall y | 0 <= y < |s.peers| && s.peers[y].feed.Some?
      ensures FeedInv(s'.peers, y)
    {
      assert PeerInv(s, y);
      FeedUnmoved(s.peers, h, more, e.Closes? || s.peers[h].closed, y);
    }
    OnePeerKeeps(s, h, s');
  }

  /** What a client still sends changes nothing of what was copied. */
  lemma FeedUnmoved(peers: seq<Peer>, h: nat, more: Bytes, closed: bool, y: nat)
    requires h < |peers| && y < |peers| && peers[y].feed.Some? && FeedInv(peers, y)
    requires peers[h].closed ==> closed && more == []
    ensures FeedInv(peers[h := peers[h].(input := peers[h].input + more, closed := closed)], y)
  {
    var feed := peers[y].feed.value;
    var input := peers[feed.from].input;
    SliceStays(input, more, feed.read - |feed.buffer|, feed.read);
  }

  lemma StreamsStepKeeps(names: seq<string>, s: Relay, h: nat, e: Event, s': Relay)
    requires RelayInv(names, s) && StreamInv(s) && Step(names, s, h, e, s')
    ensures StreamInv(s')
  {
    match e
    case Create => SeatingKeeps(names, s, h, e, s');
    case Join => SeatingKeeps(names, s, h, e, s');
    case TakeOwn => TakeOwnKeeps(names, s, h, s');
    case KeepTake => KeepTakeKeeps(names, s, h, s');
    case PingWrite(k) => PingWriteKeeps(names, s, h, k, s');
    case PingDone => PingDoneKeeps(names, s, h, s');
    case PingFails => PingFailsKeeps(names, s, h, s');
    case CopyRead(_, _) => FeedStepKeeps(names, s, h, e, s');
    case CopyWrite(_, _) => FeedStepKeeps(names, s, h, e, s');
    case CopyEof(_) => FeedStepKeeps(names, s, h, e, s');
    case CopyFails(_) => FeedStepKeeps(names, s, h, e, s');
    case Arrives(_) => ArrivalKeeps(names, s, h, e, s');
    case Closes => ArrivalKeeps(names, s, h, e, s');
    case _ => QuietStepKeeps(names, s, h, e, s');
  }
}
