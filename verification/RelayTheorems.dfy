/** What holds of the relay over every interleaving of any number of handlers. */
module RelayTheorems {
  import opened Bytes
  import opened Options
  import opened Rooms
  import opened RoomSteps
  import opened RoomStreams

  lemma {:induction false} RunKeeps(names: seq<string>, run: seq<Relay>)
    requires IsRun(names, run)
    ensures RelayInv(names, run[|run| - 1]) && StreamInv(run[|run| - 1])
    decreases |run|
  {
    var n := |run|;
    if n == 1 {
      StartHolds(names);
      StartStreams(names);
    } else {
      RunKeeps(names, run[..n - 1]);
      assert Next(names, run[n - 2], run[n - 1]);
      var h: nat, e :| Step(names, run[n - 2], h, e, run[n - 1]);
      StepKeeps(names, run[n - 2], h, e, run[n - 1]);
      StreamsStepKeeps(names, run[n - 2], h, e, run[n - 1]);
    }
  }

  lemma ReachableInv(names: seq<string>, s: Relay)
    requires Reachable(names, s)
    ensures RelayInv(names, s) && StreamInv(s)
  {
    var run: seq<Relay> :| IsRun(names, run) && run[|run| - 1] == s;
    RunKeeps(names, run);
  }

  // ----- pairing -----

  /** The two `unwrap`s before a relay never fail: a handler that finds its room
      full finds both sessions there. */
  lemma UnwrapsAreSafe(names: seq<string>, s: Relay, h: nat)
    requires Reachable(names, s) && h < |s.pcs|
    ensures !s.pcs[h].Panicked?
    ensures forall r :: 0 <= r < |s.rooms| && IsFull(s.rooms[r]) ==> s.rooms[r].first.Some? && s.rooms[r].second.Some?
  {
    ReachableInv(names, s);
    assert HandlerInv(names, s, h);
    forall r | 0 <= r < |s.rooms| && IsFull(s.rooms[r])
      ensures s.rooms[r].first.Some? && s.rooms[r].second.Some?
    {
      assert RoomInv(names, s, r);
    }
  }

  /** Whoever is bridged is bridged with the client that took the other seat of
      the very same room, under the name both asked for, and with nobody else. */
  lemma BridgesArePairs(names: seq<string>, s: Relay, x: nat)
    requires Reachable(names, s) && x < |s.peers| && s.peers[x].feed.Some?
    ensures var y := s.peers[x].feed.value.from;
            && y < |s.peers| && y != x && s.peers[y].feed.Some? && s.peers[y].feed.value.from == x
            && s.peers[x].place.Some? && s.peers[y].place.Some?
            && s.peers[x].place.value.room == s.peers[y].place.value.room
            && s.peers[x].place.value.slot != s.peers[y].place.value.slot
  {
    ReachableInv(names, s);
    assert PeerInv(s, x) && FeedInv(s.peers, x);
  }

  /** A handler that relays does so for the two clients that negotiated the room
      it relays, also when it did not negotiate that room itself. */
  lemma RelaysOwnRoom(names: seq<string>, s: Relay, h: nat)
    requires Reachable(names, s) && h < |s.pcs| && s.pcs[h].Relaying?
    ensures var Relaying(r, f, g) := s.pcs[h];
            && Seated(names, s, f, r, First) && Seated(names, s, g, r, Second)
            && h < |names| && names[f] == names[g] == names[h]
            && s.rooms[r].holder == Some(h)
  {
    ReachableInv(names, s);
    assert HandlerInv(names, s, h) && LockInv(s, h);
    assert HoldsRoom(s.pcs[h], s.pcs[h].room);
  }

  ghost predicate KeepsTies(s: Relay, s': Relay, x: nat)
    requires x < |s.peers|
  {
    && x < |s'.peers|
    && (s.peers[x].place.Some? ==> s'.peers[x].place == s.peers[x].place)
    && (s.peers[x].feed.Some? ==> s'.peers[x].feed.Some? && s'.peers[x].feed.value.from == s.peers[x].feed.value.from)
  }

  lemma TakeOwnKeepsTies(names: seq<string>, s: Relay, h: nat, s': Relay, x: nat)
    requires RelayInv(names, s) && Step(names, s, h, TakeOwn, s') && x < |s.peers|
    ensures KeepsTies(s, s', x)
  {
    assert RoomInv(names, s, s.pcs[h].room);
  }

  lemma SeatingKeepsTies(names: seq<string>, s: Relay, h: nat, e: Event, s': Relay, x: nat)
    requires Step(names, s, h, e, s') && (e.Create? || e.Join?) && x < |s.peers| && Unseated(s.peers[h])
    ensures KeepsTies(s, s', x)
  {
  }

  lemma OtherKeepsTies(names: seq<string>, s: Relay, h: nat, e: Event, s': Relay, x: nat)
    requires Step(names, s, h, e, s') && !e.TakeOwn? && !e.Create? && !e.Join? && x < |s.peers|
    ensures KeepsTies(s, s', x)
  {
  }

  /** A seat, once taken, and a bridge, once made, are never changed: no client is
      seated or bridged twice. */
  lemma SeatedAndBridgedOnce(names: seq<string>, s: Relay, s': Relay, x: nat)
    requires RelayInv(names, s) && Next(names, s, s') && x < |s.peers|
    ensures KeepsTies(s, s', x)
  {
    var h: nat, e :| Step(names, s, h, e, s');
    if e.TakeOwn? {
      TakeOwnKeepsTies(names, s, h, s', x);
    } else if e.Create? || e.Join? {
      assert HandlerInv(names, s, h);
      SeatingKeepsTies(names, s, h, e, s', x);
    } else {
      OtherKeepsTies(names, s, h, e, s', x);
    }
  }

  // ----- removal -----

  /** When a relaying handler removes its name, the map still gives the room it
      relayed; a newer room of that name is never removed. */
  lemma RemovalIsExact(names: seq<string>, s: Relay, h: nat)
    requires Reachable(names, s) && h < |s.pcs| && s.pcs[h].WantRemove?
    ensures h < |names| && names[h] in s.table && s.table[names[h]] == s.pcs[h].room
  {
    ReachableInv(names, s);
    assert HandlerInv(names, s, h);
  }

  lemma FreeRoomHasFirst(names: seq<string>, s: Relay, name: string)
    requires Reachable(names, s) && name in s.table
    ensures s.table[name] < |s.rooms| && s.rooms[s.table[name]].name == name
    ensures s.rooms[s.table[name]].holder.None? ==> s.rooms[s.table[name]].first.Some?
  {
    ReachableInv(names, s);
    assert RoomInv(names, s, s.table[name]);
  }

  // ----- what clients receive -----

  /** Until it is bridged a client receives whole pings (unless one is being
      written); afterwards, what its peer has sent, in order and without gaps.  A
      client whose ping failed receives nothing more. */
  lemma OutputIsPingsThenPeer(names: seq<string>, s: Relay, x: nat)
    requires Reachable(names, s) && x < |s.peers|
    ensures s.peers[x].feed.None? && !s.peers[x].broken && !BeingPinged(s, x) ==> PingsThen(s.peers[x].output, [])
    ensures s.peers[x].feed.Some? && !s.peers[x].broken ==>
              var feed := s.peers[x].feed.value;
              feed.from < |s.peers| && PingsThen(s.peers[x].output, Written(s.peers[feed.from].input, feed))
    ensures s.peers[x].broken ==> CutPing(s.peers[x].output)
  {
    ReachableInv(names, s);
    assert PeerInv(s, x);
  }

  /** After the relay has taken a session, no ping is written to it: its output
      grows only by the next bytes of its peer's input. */
  lemma NoPingAfterBridge(names: seq<string>, s: Relay, s': Relay, x: nat) returns (more: Bytes)
    requires RelayInv(names, s) && StreamInv(s) && Next(names, s, s')
    requires x < |s.peers| && s.peers[x].feed.Some? && s.peers[x].feed.value.from < |s.peers|
    ensures x < |s'.peers| && s'.peers[x].output == s.peers[x].output + more
    ensures var feed := s.peers[x].feed.value; var input := s.peers[feed.from].input;
            Written(input, feed) + more <= input
  {
    var h: nat, e :| Step(names, s, h, e, s');
    assert PeerInv(s, x);
    if e.CopyWrite? && e.to == x {
      more := s.peers[x].feed.value.buffer[..e.k];
      BufferIsNext(s.peers, x, e.k);
    } else {
      more := [];
      WrittenOnlyByCopy(names, s, h, e, s', x);
    }
  }

  lemma BufferIsNext(peers: seq<Peer>, x: nat, k: nat)
    requires x < |peers| && peers[x].feed.Some? && FeedInv(peers, x) && k <= |peers[x].feed.value.buffer|
    ensures var feed := peers[x].feed.value; var input := peers[feed.from].input;
            Written(input, feed) + feed.buffer[..k] <= input
  {
    var feed := peers[x].feed.value;
    var input, done := peers[feed.from].input, feed.read - |feed.buffer|;
    SliceGrows(input, done, feed.read, k);
  }

  lemma WrittenOnlyByCopy(names: seq<string>, s: Relay, h: nat, e: Event, s': Relay, x: nat)
    requires RelayInv(names, s) && StreamInv(s) && Step(names, s, h, e, s') && x < |s.peers| && s.peers[x].feed.Some?
    requires !(e.CopyWrite? && e.to == x)
    ensures x < |s'.peers| && s'.peers[x].output == s.peers[x].output
  {
    assert PingInv(s, h) && HandlerInv(names, s, h);
  }

  /** Each direction of a bridge has passed on a prefix of the peer's bytes, and
      all of them when it ended at end of file. */
  lemma BridgeConserves(names: seq<string>, s: Relay, x: nat)
    requires Reachable(names, s) && x < |s.peers| && s.peers[x].feed.Some?
    ensures var feed := s.peers[x].feed.value;
            && feed.from < |s.peers| && |feed.buffer| <= 1024
            && Written(s.peers[feed.from].input, feed) + feed.buffer <= s.peers[feed.from].input
            && (feed.status.AtEof? ==>
                  s.peers[feed.from].closed && Written(s.peers[feed.from].input, feed) == s.peers[feed.from].input)
  {
    ReachableInv(names, s);
    assert PeerInv(s, x);
    PassedOn(s.peers, x);
  }

  lemma PassedOn(peers: seq<Peer>, x: nat)
    requires x < |peers| && peers[x].feed.Some? && FeedInv(peers, x)
    ensures var feed := peers[x].feed.value;
            && Written(peers[feed.from].input, feed) + feed.buffer <= peers[feed.from].input
            && (feed.status.AtEof? ==>
                  peers[feed.from].closed && Written(peers[feed.from].input, feed) == peers[feed.from].input)
  {
    var feed := peers[x].feed.value;
    SliceJoins(peers[feed.from].input, feed.read - |feed.buffer|, |feed.buffer|);
  }

  // ----- waiting for locks -----

  predicate WaitsForMap(pc: Pc) {
    pc.WantMap? || pc.LookUp? || pc.WantRemove? || pc.KeepLookUp?
  }

  predicate WaitsForRoom(pc: Pc) {
    pc.WantRoom? || pc.WantOwn? || pc.KeepWait?
  }

  ghost predicate WaitsFor(s: Relay, h: nat, g: nat) {
    && h < |s.pcs| && g < |s.pcs|
    && ((WaitsForMap(s.pcs[h]) && s.holder == Some(g))
        || (WaitsForRoom(s.pcs[h]) && InRoom(s, s.pcs[h].room) && s.rooms[s.pcs[h].room].holder == Some(g)))
  }

  function After(i: nat, n: nat): nat {
    if i + 1 == n then 0 else i + 1
  }

  function Before(i: nat, n: nat): nat
    requires i < n
  {
    if i == 0 then n - 1 else i - 1
  }

  ghost predicate LinkAt(s: Relay, c: seq<nat>, i: nat)
    requires i < |c|
  {
    WaitsFor(s, c[i], c[After(i, |c|)])
  }

  ghost predicate IsCycle(s: Relay, c: seq<nat>) {
    |c| > 0 && forall i :: 0 <= i < |c| ==> LinkAt(s, c, i)
  }

  /** A negotiator that holds the map and waits for a room, whose lock is held by
      a handler that is done relaying and waits for the map. */
  ghost predicate Embraced(s: Relay, h: nat, g: nat, r: nat) {
    h < |s.pcs| && g < |s.pcs| && s.pcs[h] == WantRoom(r) && s.pcs[g].WantRemove? && s.pcs[g].room == r
  }

  /** A handler that waits and is waited for. */
  lemma HoldAndWait(names: seq<string>, s: Relay, f: nat, h: nat, g: nat)
    requires RelayInv(names, s) && WaitsFor(s, f, h) && WaitsFor(s, h, g)
    ensures s.pcs[h].WantRoom? || s.pcs[h].WantRemove?
    ensures s.pcs[h].WantRoom? ==> s.holder == Some(h)
    ensures s.pcs[h].WantRemove? ==> s.holder == Some(g) && WaitsForRoom(s.pcs[f]) && s.pcs[f].room == s.pcs[h].room
  {
    assert LockInv(s, h);
    if WaitsForRoom(s.pcs[f]) {
      assert RoomInv(names, s, s.pcs[f].room);
    }
  }

  /** The members of a cycle: the negotiator that holds the map, or a relayer on
      whose room the negotiator before it waits. */
  lemma MemberShape(names: seq<string>, s: Relay, c: seq<nat>, i: nat)
    requires RelayInv(names, s) && IsCycle(s, c) && i < |c|
    ensures var b := c[Before(i, |c|)];
            && c[i] < |s.pcs| && b < |s.pcs|
            && (|| (s.pcs[c[i]].WantRoom? && s.holder == Some(c[i]))
                || (s.pcs[c[i]].WantRemove? && s.pcs[b] == WantRoom(s.pcs[c[i]].room) && s.holder == Some(b)
                    && InRoom(s, s.pcs[c[i]].room) && s.rooms[s.pcs[c[i]].room].holder == Some(c[i])))
  {
    var n := |c|;
    var b := Before(i, n);
    var bb := Before(b, n);
    assert LinkAt(s, c, bb) && LinkAt(s, c, b) && LinkAt(s, c, i);
    HoldAndWait(names, s, c[b], c[i], c[After(i, n)]);
    HoldAndWait(names, s, c[bb], c[b], c[i]);
  }

  /** The one lock cycle there can be. */
  lemma CycleShape(names: seq<string>, s: Relay, c: seq<nat>) returns (h: nat, g: nat, r: nat)
    requires RelayInv(names, s) && IsCycle(s, c)
    ensures Embraced(s, h, g, r)
    ensures forall i :: 0 <= i < |c| ==> c[i] == h || c[i] == g
  {
    MemberShape(names, s, c, 0);
    h := s.holder.value;
    r := s.pcs[h].room;
    var p := if s.pcs[c[0]].WantRoom? then 0 else Before(0, |c|);
    assert c[p] == h && LinkAt(s, c, p);
    g := c[After(p, |c|)];
    MemberShape(names, s, c, After(p, |c|));
    assert Before(After(p, |c|), |c|) == p;
    assert RoomInv(names, s, r);
    forall i | 0 <= i < |c|
      ensures c[i] == h || c[i] == g
    {
      MemberShape(names, s, c, i);
    }
  }

  /** Short of that embrace, every handler that waits for a lock is at most three
      links away from one that does not. */
  lemma WaitsAreShort(names: seq<string>, s: Relay, f: nat, g: nat, h: nat, k: nat)
    requires Reachable(names, s) && WaitsFor(s, f, g) && WaitsFor(s, g, h) && WaitsFor(s, h, k)
    ensures (exists r :: Embraced(s, g, h, r)) || (exists r :: Embraced(s, h, k, r))
         || forall m: nat :: !WaitsFor(s, k, m)
  {
    ReachableInv(names, s);
    HoldAndWait(names, s, f, g, h);
    HoldAndWait(names, s, g, h, k);
    if s.pcs[g].WantRoom? {
      assert RoomInv(names, s, s.pcs[g].room);
      assert Embraced(s, g, h, s.pcs[g].room);
    } else if m: nat :| WaitsFor(s, k, m) {
      HoldAndWait(names, s, h, k, m);
      assert RoomInv(names, s, s.pcs[h].room);
      assert Embraced(s, h, k, s.pcs[h].room);
    }
  }

  // ----- exactly when the embrace can happen -----

  ghost predicate CanDeadlock(names: seq<string>) {
    exists s: Relay, c: seq<nat> :: Reachable(names, s) && IsCycle(s, c)
  }

  /** Three connections ask for one room. */
  ghost predicate ThreeAlike(names: seq<string>, a: nat, b: nat, c: nat) {
    && a < |names| && b < |names| && c < |names|
    && a != b && b != c && a != c
    && names[a] == names[b] == names[c]
  }

  /** The negotiator in the embrace has no seat: it asks for a room whose two
      seats are taken by two other clients, who asked for the same name. */
  lemma EmbraceNeedsThree(names: seq<string>, s: Relay, h: nat, g: nat, r: nat) returns (a: nat, b: nat)
    requires RelayInv(names, s) && Embraced(s, h, g, r)
    ensures ThreeAlike(names, a, b, h)
    ensures Seated(names, s, a, r, First) && Seated(names, s, b, r, Second) && h < |s.peers| && Unseated(s.peers[h])
  {
    assert HandlerInv(names, s, h) && HandlerInv(names, s, g);
    a, b := s.pcs[g].first, s.pcs[g].second;
  }

  lemma ExtendRun(names: seq<string>, run: seq<Relay>, h: nat, e: Event, s': Relay)
    requires IsRun(names, run) && Step(names, run[|run| - 1], h, e, s')
    ensures IsRun(names, run + [s'])
  {
    var longer := run + [s'];
    assert Next(names, run[|run| - 1], s');
  }

  /** Two connections negotiate a room. */
  lemma Negotiate(names: seq<string>, a: nat, b: nat) returns (run: seq<Relay>)
    requires a < |names| && b < |names| && a != b && names[a] == names[b]
    ensures IsRun(names, run)
    ensures var s := run[|run| - 1];
            && s.rooms == [Room(names[a], Some(a), Some(b), false, None)]
            && s.table == map[names[a] := 0] && s.holder == None
            && s.pcs == Start(names).pcs[a := LookUp][b := LookUp]
            && |s.peers| == |names|
            && s.peers[a] == Peer([], false, [], Some(Place(0, First)), None, false)
            && s.peers[b] == Peer([], false, [], Some(Place(0, Second)), None, false)
  {
    var name := names[a];
    var s0 := Start(names);
    run := [s0];
    var s1 := SetPc(s0, a, Creating).(holder := Some(a));
    ExtendRun(names, run, a, TakeMap, s1);
    run := run + [s1];
    var s2 := SetPeer(SetPc(s1, a, LookUp), a, s1.peers[a].(place := Some(Place(0, First))))
              .(rooms := [Room(name, Some(a), None, false, None)], table := s1.table[name := 0], holder := None);
    ExtendRun(names, run, a, Create, s2);
    run := run + [s2];
    var s3 := SetPc(s2, b, WantRoom(0)).(holder := Some(b));
    ExtendRun(names, run, b, TakeMap, s3);
    run := run + [s3];
    var s4 := SetHolder(SetPc(s3, b, Joining(0)), 0, Some(b));
    ExtendRun(names, run, b, TakeRoom, s4);
    run := run + [s4];
    var s5 := SetPeer(SetPc(s4, b, LookUp), b, s4.peers[b].(place := Some(Place(0, Second))))
              .(rooms := s4.rooms[0 := s4.rooms[0].(second := Some(b), holder := None)], holder := None);
    ExtendRun(names, run, b, Join, s5);
    run := run + [s5];
    assert s5.pcs == s0.pcs[a := LookUp][b := LookUp];
  }

  /** Then the first one's handler relays them, and both clients close. */
  lemma RelayBoth(names: seq<string>, a: nat, b: nat) returns (run: seq<Relay>)
    requires a < |names| && b < |names| && a != b && names[a] == names[b]
    ensures IsRun(names, run)
    ensures var s := run[|run| - 1];
            && s.rooms == [Room(names[a], None, None, false, Some(a))]
            && s.table == map[names[a] := 0] && s.holder == None
            && s.pcs == Start(names).pcs[a := Relaying(0, a, b)][b := LookUp]
            && |s.peers| == |names|
            && s.peers[a] == Peer([], true, [], Some(Place(0, First)), Some(Feed(b, 0, [], Open)), false)
            && s.peers[b] == Peer([], true, [], Some(Place(0, Second)), Some(Feed(a, 0, [], Open)), false)
  {
    run := Negotiate(names, a, b);
    var s := run[|run| - 1];
    var s1 := SetPc(s, a, WantOwn(0));
    ExtendRun(names, run, a, LookUpRoom, s1);
    run := run + [s1];
    var s2 := SetPc(s1, a, Relaying(0, a, b))
                .(rooms := s1.rooms[0 := s1.rooms[0].(first := None, second := None, holder := Some(a))],
                  peers := Bridge(s1.peers, a, b));
    ExtendRun(names, run, a, TakeOwn, s2);
    run := run + [s2];
    var s3 := SetPeer(s2, a, s2.peers[a].(closed := true));
    ExtendRun(names, run, a, Closes, s3);
    run := run + [s3];
    var s4 := SetPeer(s3, b, s3.peers[b].(closed := true));
    ExtendRun(names, run, b, Closes, s4);
    run := run + [s4];
    assert s4.pcs == Start(names).pcs[a := Relaying(0, a, b)][b := LookUp];
  }

  /** The relay ends while a third connection has taken the map. */
  lemma EmbraceRun(names: seq<string>, a: nat, b: nat, c: nat) returns (run: seq<Relay>)
    requires ThreeAlike(names, a, b, c)
    ensures IsRun(names, run) && IsCycle(run[|run| - 1], [c, a])
  {
    run := RelayBoth(names, a, b);
    var s := run[|run| - 1];
    var s1 := SetPeer(s, a, s.peers[a].(feed := Some(Feed(b, 0, [], AtEof))));
    ExtendRun(names, run, a, CopyEof(a), s1);
    run := run + [s1];
    var s2 := SetPeer(s1, b, s1.peers[b].(feed := Some(Feed(a, 0, [], AtEof))));
    ExtendRun(names, run, a, CopyEof(b), s2);
    run := run + [s2];
    var s3 := SetPc(s2, a, WantRemove(0, a, b));
    ExtendRun(names, run, a, EndRelay, s3);
    run := run + [s3];
    var s4 := SetPc(s3, c, WantRoom(0)).(holder := Some(c));
    ExtendRun(names, run, c, TakeMap, s4);
    run := run + [s4];
    assert LinkAt(s4, [c, a], 0) && LinkAt(s4, [c, a], 1);
  }

  /** Nothing ever undoes the embrace. */
  lemma EmbraceIsForever(names: seq<string>, s: Relay, s': Relay, h: nat, g: nat, r: nat)
    requires RelayInv(names, s) && Embraced(s, h, g, r) && Next(names, s, s')
    ensures Embraced(s', h, g, r)
  {
    var k: nat, e :| Step(names, s, k, e, s');
    assert LockInv(s, h) && LockInv(s, g);
    assert HoldsRoom(s.pcs[g], r);
    OwnPcOnly(names, s, k, e, s');
    if k == h || k == g {
      BlockedStays(names, s, k, e, s', r);
    }
  }

  lemma OwnPcOnly(names: seq<string>, s: Relay, k: nat, e: Event, s': Relay)
    requires Step(names, s, k, e, s')
    ensures |s'.pcs| == |s.pcs| && forall j :: 0 <= j < |s.pcs| && j != k ==> s'.pcs[j] == s.pcs[j]
  {
  }

  lemma BlockedStays(names: seq<string>, s: Relay, k: nat, e: Event, s': Relay, r: nat)
    requires Step(names, s, k, e, s') && s.holder.Some? && InRoom(s, r) && s.rooms[r].holder.Some?
    requires s.pcs[k] == WantRoom(r) || s.pcs[k].WantRemove?
    ensures s'.pcs == s.pcs
  {
  }

  /** The relay's handlers can block each other for ever exactly when three
      connections ask for the same room. */
  lemma DeadlocksExactlyWhen(names: seq<string>)
    ensures CanDeadlock(names) <==> exists a, b, c :: ThreeAlike(names, a, b, c)
  {
    if s: Relay, c: seq<nat> :| Reachable(names, s) && IsCycle(s, c) {
      ReachableInv(names, s);
      var h, g, r := CycleShape(names, s, c);
      var a, b := EmbraceNeedsThree(names, s, h, g, r);
    }
    if a, b, c :| ThreeAlike(names, a, b, c) {
      var run := EmbraceRun(names, a, b, c);
      assert Reachable(names, run[|run| - 1]);
    }
  }
}
