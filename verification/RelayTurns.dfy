/** Turn by turn: when a relay ends and with what passed on, what each turn of a
    handler leads to, and when a handler can go on. */
module RelayTurns {
  import opened Bytes
  import opened Framing
  import opened Options
  import opened Rooms
  import opened RoomStreams
  import opened RelayTheorems

  // ----- the end of a relay -----

  /** The two directions between `x` and its peer: one has failed, or both are at end
      of file. */
  ghost predicate RelayOver(peers: seq<Peer>, x: nat)
    requires x < |peers| && peers[x].feed.Some?
  {
    var y := peers[x].feed.value.from;
    && y < |peers| && peers[y].feed.Some?
    && (|| peers[x].feed.value.status.Broken? || peers[y].feed.value.status.Broken?
        || (peers[x].feed.value.status.AtEof? && peers[y].feed.value.status.AtEof?))
  }

  /** Some handler relays `x` with its peer. */
  ghost predicate Attended(s: Relay, x: nat)
    requires x < |s.peers| && s.peers[x].feed.Some?
  {
    exists h :: Attends(s, h, x, s.peers[x].feed.value.from)
  }

  ghost predicate Attends(s: Relay, h: nat, x: nat, y: nat) {
    && h < |s.pcs| && s.pcs[h].Relaying?
    && ((s.pcs[h].first == x && s.pcs[h].second == y) || (s.pcs[h].first == y && s.pcs[h].second == x))
  }

  ghost predicate TendedTo(s: Relay, x: nat)
    requires x < |s.peers|
  {
    s.peers[x].feed.Some? ==> Attended(s, x) || RelayOver(s.peers, x)
  }

  /** Whom a handler relays, or has relayed, are each other's peers. */
  ghost predicate PairInv(s: Relay, h: nat)
    requires h < |s.pcs|
  {
    s.pcs[h].Relaying? || s.pcs[h].WantRemove? ==>
      var f, g := s.pcs[h].first, s.pcs[h].second;
      && f < |s.peers| && g < |s.peers| && f != g
      && s.peers[f].feed.Some? && s.peers[f].feed.value.from == g
      && s.peers[g].feed.Some? && s.peers[g].feed.value.from == f
      && (s.pcs[h].WantRemove? ==> RelayOver(s.peers, f))
  }

  ghost predicate EndInv(s: Relay) {
    && (forall x :: 0 <= x < |s.peers| ==> TendedTo(s, x))
    && (forall h :: 0 <= h < |s.pcs| ==> PairInv(s, h))
  }

  /** A bridge stays, and a direction that has ended stays as it ended. */
  ghost predicate FeedStays(s: Relay, s': Relay, x: nat)
    requires x < |s.peers| && s.peers[x].feed.Some?
  {
    && x < |s'.peers| && s'.peers[x].feed.Some?
    && s'.peers[x].feed.value.from == s.peers[x].feed.value.from
    && (!s.peers[x].feed.value.status.Open? ==> s'.peers[x].feed == s.peers[x].feed)
  }

  lemma FeedsStay(names: seq<string>, s: Relay, h: nat, e: Event, s': Relay, x: nat)
    requires RelayInv(names, s) && Step(names, s, h, e, s') && x < |s.peers| && s.peers[x].feed.Some?
    ensures FeedStays(s, s', x)
  {
    if e.TakeOwn? {
      TakingFeedsStay(names, s, h, s', x);
    } else if e.Create? || e.Join? {
      assert HandlerInv(names, s, h);
      SeatingFeedsStay(names, s, h, e, s', x);
    } else if e.CopyRead? || e.CopyWrite? || e.CopyEof? || e.CopyFails? {
      CopyingFeedsStay(names, s, h, e, s', x);
    } else {
      OtherFeedsStay(names, s, h, e, s', x);
    }
  }

  lemma SeatingFeedsStay(names: seq<string>, s: Relay, h: nat, e: Event, s': Relay, x: nat)
    requires Step(names, s, h, e, s') && (e.Create? || e.Join?) && Unseated(s.peers[h])
    requires x < |s.peers| && s.peers[x].feed.Some?
    ensures FeedStays(s, s', x)
  {
  }

  lemma CopyingFeedsStay(names: seq<string>, s: Relay, h: nat, e: Event, s': Relay, x: nat)
    requires Step(names, s, h, e, s') && (e.CopyRead? || e.CopyWrite? || e.CopyEof? || e.CopyFails?)
    requires x < |s.peers| && s.peers[x].feed.Some?
    ensures FeedStays(s, s', x)
  {
  }

  lemma OtherFeedsStay(names: seq<string>, s: Relay, h: nat, e: Event, s': Relay, x: nat)
    requires Step(names, s, h, e, s') && !e.TakeOwn? && !e.Create? && !e.Join?
    requires !e.CopyRead? && !e.CopyWrite? && !e.CopyEof? && !e.CopyFails?
    requires x < |s.peers| && s.peers[x].feed.Some?
    ensures FeedStays(s, s', x)
  {
  }

  lemma TakingFeedsStay(names: seq<string>, s: Relay, h: nat, s': Relay, x: nat)
    requires RelayInv(names, s) && Step(names, s, h, TakeOwn, s') && x < |s.peers| && s.peers[x].feed.Some?
    ensures FeedStays(s, s', x)
  {
    assert RoomInv(names, s, s.pcs[h].room);
  }

  lemma OverStays(s: Relay, s': Relay, x: nat)
    requires x < |s.peers| && s.peers[x].feed.Some? && RelayOver(s.peers, x)
    requires FeedStays(s, s', x) && FeedStays(s, s', s.peers[x].feed.value.from)
    ensures RelayOver(s'.peers, x)
  {
  }

  /** Handlers change only by their own steps, and only two steps concern a relay. */
  lemma RelayersStay(names: seq<string>, s: Relay, h: nat, e: Event, s': Relay, g: nat)
    requires Step(names, s, h, e, s') && g < |s.pcs|
    ensures |s'.pcs| == |s.pcs| && |s'.peers| == |s.peers|
    ensures g != h || !(e.EndRelay? || e.Remove?) ==>
              (s.pcs[g].Relaying? || s.pcs[g].WantRemove? ==> s'.pcs[g] == s.pcs[g])
    ensures g != h || !(e.TakeOwn? || e.EndRelay?) ==>
              (s'.pcs[g].Relaying? || s'.pcs[g].WantRemove? ==> s'.pcs[g] == s.pcs[g])
  {
  }

  lemma PairStays(names: seq<string>, s: Relay, h: nat, e: Event, s': Relay, g: nat)
    requires RelayInv(names, s) && Step(names, s, h, e, s') && g < |s.pcs| && PairInv(s, g)
    requires s'.pcs[g] == s.pcs[g]
    ensures PairInv(s', g)
  {
    if s.pcs[g].Relaying? || s.pcs[g].WantRemove? {
      FeedsStay(names, s, h, e, s', s.pcs[g].first);
      FeedsStay(names, s, h, e, s', s.pcs[g].second);
      if s.pcs[g].WantRemove? {
        OverStays(s, s', s.pcs[g].first);
      }
    }
  }

  lemma TendedStays(names: seq<string>, s: Relay, h: nat, e: Event, s': Relay, x: nat)
    requires RelayInv(names, s) && EndInv(s) && Step(names, s, h, e, s') && !e.EndRelay? && !e.TakeOwn?
    requires x < |s.peers|
    ensures x < |s'.peers| && TendedTo(s', x)
  {
    if s.peers[x].feed.Some? {
      FeedsStay(names, s, h, e, s', x);
      assert TendedTo(s, x);
      if RelayOver(s.peers, x) {
        FeedsStay(names, s, h, e, s', s.peers[x].feed.value.from);
        OverStays(s, s', x);
      } else {
        var g :| Attends(s, g, x, s.peers[x].feed.value.from);
        RelayersStay(names, s, h, e, s', g);
        OnlyRelayersEnd(names, s, h, e, s', g);
        assert Attends(s', g, x, s'.peers[x].feed.value.from);
      }
    } else {
      OnlyTakingBridges(names, s, h, e, s', x);
    }
  }

  lemma OnlyRelayersEnd(names: seq<string>, s: Relay, h: nat, e: Event, s': Relay, g: nat)
    requires Step(names, s, h, e, s') && !e.EndRelay? && g < |s.pcs| && s.pcs[g].Relaying?
    ensures s'.pcs[g] == s.pcs[g]
  {
  }

  lemma OnlyTakingBridges(names: seq<string>, s: Relay, h: nat, e: Event, s': Relay, x: nat)
    requires Step(names, s, h, e, s') && !e.TakeOwn? && x < |s.peers| && s.peers[x].feed.None?
    ensures x < |s'.peers| && s'.peers[x].feed.None?
  {
  }

  lemma EndRelayKeeps(names: seq<string>, s: Relay, h: nat, s': Relay)
    requires RelayInv(names, s) && EndInv(s) && Step(names, s, h, EndRelay, s')
    ensures EndInv(s')
  {
    var f, g := s.pcs[h].first, s.pcs[h].second;
    assert PairInv(s, h) && s'.peers == s.peers;
    forall x | 0 <= x < |s'.peers|
      ensures TendedTo(s', x)
    {
      assert TendedTo(s, x);
      if s.peers[x].feed.Some? && !RelayOver(s.peers, x) {
        var k :| Attends(s, k, x, s.peers[x].feed.value.from);
        assert k != h;
        assert Attends(s', k, x, s'.peers[x].feed.value.from);
      }
    }
    forall k | 0 <= k < |s'.pcs|
      ensures PairInv(s', k)
    {
      assert PairInv(s, k);
    }
  }

  lemma TakeOwnKeepsEnds(names: seq<string>, s: Relay, h: nat, s': Relay)
    requires RelayInv(names, s) && EndInv(s) && Step(names, s, h, TakeOwn, s')
    ensures EndInv(s')
  {
    var r := s.pcs[h].room;
    assert RoomInv(names, s, r);
    forall x | 0 <= x < |s'.peers|
      ensures TendedTo(s', x)
    {
      TakingTends(names, s, h, s', x);
    }
    forall k | 0 <= k < |s'.pcs|
      ensures PairInv(s', k)
    {
      if k != h {
        PairStays(names, s, h, TakeOwn, s', k);
      } else {
        TakingPairs(names, s, h, s');
      }
    }
  }

  lemma TakingPairs(names: seq<string>, s: Relay, h: nat, s': Relay)
    requires RelayInv(names, s) && Step(names, s, h, TakeOwn, s')
    ensures PairInv(s', h)
  {
    assert RoomInv(names, s, s.pcs[h].room);
  }

  lemma TakingTends(names: seq<string>, s: Relay, h: nat, s': Relay, x: nat)
    requires RelayInv(names, s) && EndInv(s) && Step(names, s, h, TakeOwn, s') && x < |s.peers|
    ensures x < |s'.peers| && TendedTo(s', x)
  {
    TakingPairs(names, s, h, s');
    if s.peers[x].feed.Some? {
      FeedsStay(names, s, h, TakeOwn, s', x);
      assert TendedTo(s, x);
      if RelayOver(s.peers, x) {
        FeedsStay(names, s, h, TakeOwn, s', s.peers[x].feed.value.from);
        OverStays(s, s', x);
      } else {
        var g :| Attends(s, g, x, s.peers[x].feed.value.from);
        assert Attends(s', g, x, s'.peers[x].feed.value.from);
      }
    } else if s'.peers[x].feed.Some? {
      assert Attends(s', h, x, s'.peers[x].feed.value.from);
    }
  }

  lemma StepKeepsEnds(names: seq<string>, s: Relay, h: nat, e: Event, s': Relay)
    requires RelayInv(names, s) && EndInv(s) && Step(names, s, h, e, s')
    ensures EndInv(s')
  {
    if e.EndRelay? {
      EndRelayKeeps(names, s, h, s');
    } else if e.TakeOwn? {
      TakeOwnKeepsEnds(names, s, h, s');
    } else {
      forall x | 0 <= x < |s'.peers|
        ensures TendedTo(s', x)
      {
        RelayersStay(names, s, h, e, s', h);
        TendedStays(names, s, h, e, s', x);
      }
      forall k | 0 <= k < |s'.pcs|
        ensures PairInv(s', k)
      {
        RelayersStay(names, s, h, e, s', k);
        if s'.pcs[k].Relaying? || s'.pcs[k].WantRemove? {
          PairStays(names, s, h, e, s', k);
        }
      }
    }
  }

  lemma {:induction false} RunKeepsEnds(names: seq<string>, run: seq<Relay>)
    requires IsRun(names, run)
    ensures EndInv(run[|run| - 1])
    decreases |run|
  {
    var n := |run|;
    if n > 1 {
      RunKeepsEnds(names, run[..n - 1]);
      RunKeeps(names, run[..n - 1]);
      assert Next(names, run[n - 2], run[n - 1]);
      var h: nat, e :| Step(names, run[n - 2], h, e, run[n - 1]);
      StepKeepsEnds(names, run[n - 2], h, e, run[n - 1]);
    }
  }

  lemma ReachableEnds(names: seq<string>, s: Relay)
    requires Reachable(names, s)
    ensures EndInv(s)
  {
    var run: seq<Relay> :| IsRun(names, run) && run[|run| - 1] == s;
    RunKeepsEnds(names, run);
  }

  /** A bridge that no handler relays any more, in particular one whose handler waits to
      remove the room or is done, has a direction that failed or has both at end of
      file. */
  lemma RelaysEndExactly(names: seq<string>, s: Relay, x: nat)
    requires Reachable(names, s) && x < |s.peers| && s.peers[x].feed.Some?
    ensures Attended(s, x) || RelayOver(s.peers, x)
  {
    ReachableEnds(names, s);
    assert TendedTo(s, x);
  }

  /** ... and when no direction failed, each of the two was sent all that the other
      sent, and both have closed. */
  lemma WholeStreamsArrive(names: seq<string>, s: Relay, h: nat)
    requires Reachable(names, s) && h < |s.pcs| && s.pcs[h].WantRemove?
    ensures var f, g := s.pcs[h].first, s.pcs[h].second;
            && f < |s.peers| && g < |s.peers| && s.peers[f].feed.Some? && s.peers[g].feed.Some?
            && RelayOver(s.peers, f)
            && (!s.peers[f].feed.value.status.Broken? && !s.peers[g].feed.value.status.Broken? ==>
                  && s.peers[f].closed && s.peers[g].closed
                  && (!s.peers[f].broken ==> PingsThen(s.peers[f].output, s.peers[g].input))
                  && (!s.peers[g].broken ==> PingsThen(s.peers[g].output, s.peers[f].input)))
  {
    ReachableEnds(names, s);
    assert PairInv(s, h);
    var f, g := s.pcs[h].first, s.pcs[h].second;
    BridgeConserves(names, s, f);
    BridgeConserves(names, s, g);
    OutputIsPingsThenPeer(names, s, f);
    OutputIsPingsThenPeer(names, s, g);
  }

  // ----- the turns of a handler -----

  /** Why a handler ends: its client did not get the answer, its room was full, its
      name stands for no room, its room has no first client to ping, a ping failed, or
      it has removed the room it relayed. */
  ghost predicate MayEnd(names: seq<string>, s: Relay, h: nat, s': Relay)
    requires Sized(names, s) && Sized(names, s') && h < |names|
  {
    match s.pcs[h]
    case Creating => s'.table == s.table && Unseated(s'.peers[h])
    case Joining(r) => r < |s'.rooms| && s'.rooms[r].second.None? && Unseated(s'.peers[h])
    case Refusing(r) => r < |s.rooms| && s.rooms[r].first.Some? && s.rooms[r].second.Some?
    case LookUp => names[h] !in s.table
    case KeepLookUp => names[h] !in s.table
    case KeepWait(r) => r < |s.rooms| && s.rooms[r].first.None?
    case Pinging(_, x, _) => x < |s'.peers| && s'.peers[x].broken
    case WantRemove(_, _, _) => names[h] in s.table && names[h] !in s'.table
    case _ => false
  }

  /** A handler ends for one of these reasons only. */
  lemma HandlersEndOnlyWhen(names: seq<string>, s: Relay, h: nat, s': Relay)
    requires Reachable(names, s) && Next(names, s, s') && h < |names|
    ensures Sized(names, s) && Sized(names, s')
    ensures s.pcs[h] != Done && s'.pcs[h] == Done ==> MayEnd(names, s, h, s')
  {
    ReachableInv(names, s);
    var k: nat, e :| Step(names, s, k, e, s');
    OwnPcOnly(names, s, k, e, s');
    RelayersStay(names, s, k, e, s', k);
    if s.pcs[h] != Done && s'.pcs[h] == Done {
      assert HandlerInv(names, s, h);
      EndingTurn(names, s, h, e, s');
    }
  }

  lemma EndingTurn(names: seq<string>, s: Relay, h: nat, e: Event, s': Relay)
    requires Sized(names, s) && Sized(names, s') && h < |names| && HandlerInv(names, s, h)
    requires Step(names, s, h, e, s') && s.pcs[h] != Done && s'.pcs[h] == Done
    ensures MayEnd(names, s, h, s')
  {
  }

  /** Where a handler goes.  The first to ask for a name takes the first seat of a new
      room, the next the second, others are refused; a seated handler relays a room
      that it finds full and keeps any other alive; the first client of a room that is
      kept alive is sent a whole ping, again and again. */
  ghost predicate LeadsTo(names: seq<string>, s: Relay, h: nat, s': Relay)
    requires h < |s.pcs| && h < |names| && h < |s'.pcs|
  {
    match s.pcs[h]
    case WantMap => s'.pcs[h] == if names[h] in s.table then WantRoom(s.table[names[h]]) else Creating
    case WantRoom(r) =>
      r < |s.rooms| &&
      s'.pcs[h] == if s.rooms[r].first.Some? && s.rooms[r].second.Some? then Refusing(r) else Joining(r)
    case Creating => s'.pcs[h] == Done || (s'.pcs[h] == LookUp && SitsAt(s', h, Place(|s.rooms|, First)))
    case Joining(r) => s'.pcs[h] == Done || (s'.pcs[h] == LookUp && SitsAt(s', h, Place(r, Second)))
    case Refusing(_) => s'.pcs[h] == Done
    case Relaying(r, f, g) => s'.pcs[h] == WantRemove(r, f, g)
    case WantRemove(_, _, _) => s'.pcs[h] == Done
    case LookUp => s'.pcs[h] == if names[h] in s.table then WantOwn(s.table[names[h]]) else Done
    case WantOwn(r) =>
      r < |s.rooms| &&
      if s.rooms[r].first.Some? && s.rooms[r].second.Some?
      then s'.pcs[h] == Relaying(r, s.rooms[r].first.value, s.rooms[r].second.value)
      else s'.pcs[h] == KeepLookUp
    case KeepLookUp => s'.pcs[h] == if names[h] in s.table then KeepWait(s.table[names[h]]) else Done
    case KeepWait(r) =>
      r < |s.rooms| &&
      if s.rooms[r].first.Some? then s'.pcs[h] == Pinging(r, s.rooms[r].first.value, Frame([1]))
      else s'.pcs[h] == Done
    case Pinging(r, x, rest) =>
      || (rest == [] && s'.pcs[h] == KeepWait(r))
      || (rest != [] && s'.pcs[h] == Done && x < |s'.peers| && s'.peers[x].broken)
      || (exists k: nat :: IsShorterPing(s'.pcs[h], r, x, rest, k))
    case _ => true
  }

  ghost predicate SitsAt(s: Relay, h: nat, place: Place) {
    && h < |s.peers| && s.peers[h].place == Some(place) && place.room < |s.rooms|
    && (if place.slot.First? then s.rooms[place.room].first else s.rooms[place.room].second) == Some(h)
  }

  ghost predicate IsShorterPing(pc: Pc, r: nat, x: nat, rest: Bytes, k: nat) {
    0 < k <= |rest| && pc == Pinging(r, x, rest[k..])
  }

  lemma TurnsLeadTo(names: seq<string>, s: Relay, h: nat, s': Relay)
    requires Reachable(names, s) && Next(names, s, s') && h < |s.pcs| && h < |names| && h < |s'.pcs|
    requires s'.pcs[h] != s.pcs[h]
    ensures LeadsTo(names, s, h, s')
  {
    ReachableInv(names, s);
    var k: nat, e :| Step(names, s, k, e, s');
    OwnPcOnly(names, s, k, e, s');
    assert HandlerInv(names, s, h);
    if s.pcs[h].WantOwn? || s.pcs[h].WantRoom? {
      assert RoomInv(names, s, s.pcs[h].room);
      OwnTurn(names, s, h, e, s');
    } else {
      OtherTurn(names, s, h, e, s');
    }
  }

  lemma OwnTurn(names: seq<string>, s: Relay, h: nat, e: Event, s': Relay)
    requires Step(names, s, h, e, s') && h < |s'.pcs| && s'.pcs[h] != s.pcs[h]
    requires s.pcs[h].WantOwn? || s.pcs[h].WantRoom?
    requires s.pcs[h].room < |s.rooms| && RoomInv(names, s, s.pcs[h].room)
    ensures LeadsTo(names, s, h, s')
  {
  }

  lemma OtherTurn(names: seq<string>, s: Relay, h: nat, e: Event, s': Relay)
    requires Step(names, s, h, e, s') && h < |s'.pcs| && s'.pcs[h] != s.pcs[h]
    requires !s.pcs[h].WantOwn? && !s.pcs[h].WantRoom?
    requires s.pcs[h].Refusing? || s.pcs[h].Joining? ==> s.pcs[h].room < |s.rooms|
    ensures LeadsTo(names, s, h, s')
  {
    if e.PingWrite? {
      assert IsShorterPing(s'.pcs[h], s.pcs[h].room, s.pcs[h].session, s.pcs[h].rest, e.k);
    }
  }

  // ----- who can go on -----

  predicate WaitsForLock(s: Relay, h: nat)
    requires h < |s.pcs|
  {
    || (WaitsForMap(s.pcs[h]) && s.holder.Some?)
    || (WaitsForRoom(s.pcs[h]) && s.pcs[h].room < |s.rooms| && s.rooms[s.pcs[h].room].holder.Some?)
  }

  /** Both directions are whole so far, one is still open, and those that are wait for
      their client to send or to close. */
  ghost predicate WaitsForClients(s: Relay, h: nat)
    requires h < |s.pcs|
  {
    && s.pcs[h].Relaying?
    && s.pcs[h].first < |s.peers| && s.pcs[h].second < |s.peers|
    && !OneBroken(s, h) && !BothEnded(s, h)
    && IdleFeed(s.peers, s.pcs[h].first) && IdleFeed(s.peers, s.pcs[h].second)
  }

  ghost predicate OneBroken(s: Relay, h: nat)
    requires h < |s.pcs| && s.pcs[h].Relaying? && s.pcs[h].first < |s.peers| && s.pcs[h].second < |s.peers|
  {
    var a, b := s.peers[s.pcs[h].first].feed, s.peers[s.pcs[h].second].feed;
    (a.Some? && a.value.status.Broken?) || (b.Some? && b.value.status.Broken?)
  }

  ghost predicate BothEnded(s: Relay, h: nat)
    requires h < |s.pcs| && s.pcs[h].Relaying? && s.pcs[h].first < |s.peers| && s.pcs[h].second < |s.peers|
  {
    var a, b := s.peers[s.pcs[h].first].feed, s.peers[s.pcs[h].second].feed;
    a.Some? && a.value.status.AtEof? && b.Some? && b.value.status.AtEof?
  }

  ghost predicate IdleFeed(peers: seq<Peer>, x: nat)
    requires x < |peers|
  {
    peers[x].feed.Some? && peers[x].feed.value.status.Open? && peers[x].feed.value.from < |peers| ==>
      var feed := peers[x].feed.value;
      feed.buffer == [] && feed.read == |peers[feed.from].input| && !peers[feed.from].closed
  }

  lemma RelayerProgress(names: seq<string>, s: Relay, h: nat) returns (e: Event, s': Relay)
    requires RelayInv(names, s) && StreamInv(s) && EndInv(s) && h < |s.pcs| && s.pcs[h].Relaying?
    requires !WaitsForClients(s, h)
    ensures Step(names, s, h, e, s') && !e.Arrives? && !e.Closes?
  {
    var Relaying(r, f, g) := s.pcs[h];
    assert PairInv(s, h) && HandlerInv(names, s, h);
    assert PeerInv(s, f) && PeerInv(s, g);
    if OneBroken(s, h) || BothEnded(s, h) {
      e := EndRelay;
      s' := SetPc(s, h, WantRemove(r, f, g)).(rooms := s.rooms[r := s.rooms[r].(first := None, second := None)]);
    } else if !IdleFeed(s.peers, f) {
      e, s' := FeedProgress(names, s, h, f);
    } else {
      e, s' := FeedProgress(names, s, h, g);
    }
  }

  lemma FeedProgress(names: seq<string>, s: Relay, h: nat, x: nat) returns (e: Event, s': Relay)
    requires h < |s.pcs| && h < |names| && h < |s.peers| && Bridging(s, s.pcs[h], x) && FeedInv(s.peers, x)
    requires !IdleFeed(s.peers, x)
    ensures Step(names, s, h, e, s') && !e.Arrives? && !e.Closes?
  {
    var feed := s.peers[x].feed.value;
    if feed.buffer != [] {
      e, s' := BufferProgress(names, s, h, x);
    } else {
      e, s' := InputProgress(names, s, h, x);
    }
  }

  lemma BufferProgress(names: seq<string>, s: Relay, h: nat, x: nat) returns (e: Event, s': Relay)
    requires h < |s.pcs| && h < |names| && h < |s.peers| && Bridging(s, s.pcs[h], x)
    requires s.peers[x].feed.value.status.Open? && s.peers[x].feed.value.buffer != []
    ensures Step(names, s, h, e, s') && !e.Arrives? && !e.Closes?
  {
    var feed := s.peers[x].feed.value;
    if s.peers[x].broken {
      e := CopyFails(x);
      s' := SetPeer(s, x, s.peers[x].(feed := Some(feed.(status := Broken))));
    } else {
      e := CopyWrite(x, 1);
      s' := SetPeer(s, x, s.peers[x].(output := s.peers[x].output + feed.buffer[..1],
                                      feed := Some(feed.(buffer := feed.buffer[1..]))));
    }
  }

  lemma InputProgress(names: seq<string>, s: Relay, h: nat, x: nat) returns (e: Event, s': Relay)
    requires h < |s.pcs| && h < |names| && h < |s.peers| && Bridging(s, s.pcs[h], x)
    requires s.peers[x].feed.value.status.Open? && s.peers[x].feed.value.buffer == []
    requires s.peers[x].feed.value.read <= |s.peers[s.peers[x].feed.value.from].input|
    requires !IdleFeed(s.peers, x)
    ensures Step(names, s, h, e, s') && !e.Arrives? && !e.Closes?
  {
    var feed := s.peers[x].feed.value;
    var input := s.peers[feed.from].input;
    if feed.read < |input| {
      e := CopyRead(x, 1);
      var feed' := feed.(read := feed.read + 1, buffer := input[feed.read..feed.read + 1]);
      s' := SetPeer(s, x, s.peers[x].(feed := Some(feed')));
    } else {
      e := CopyEof(x);
      s' := SetPeer(s, x, s.peers[x].(feed := Some(feed.(status := AtEof))));
    }
  }

  /** A handler that is not done, does not wait for a lock and does not wait for its
      clients can go on by itself. */
  lemma HandlersGoOn(names: seq<string>, s: Relay, h: nat) returns (e: Event, s': Relay)
    requires Reachable(names, s) && h < |s.pcs| && s.pcs[h] != Done && !WaitsForLock(s, h) && !WaitsForClients(s, h)
    ensures Step(names, s, h, e, s') && !e.Arrives? && !e.Closes?
  {
    ReachableInv(names, s);
    ReachableEnds(names, s);
    if s.pcs[h].Relaying? {
      e, s' := RelayerProgress(names, s, h);
    } else if WaitsForMap(s.pcs[h]) || s.pcs[h].Creating? {
      e, s' := MapProgress(names, s, h);
    } else {
      e, s' := RoomProgress(names, s, h);
    }
  }

  lemma MapProgress(names: seq<string>, s: Relay, h: nat) returns (e: Event, s': Relay)
    requires RelayInv(names, s) && h < |s.pcs| && (WaitsForMap(s.pcs[h]) ==> s.holder.None?)
    requires WaitsForMap(s.pcs[h]) || s.pcs[h].Creating?
    ensures Step(names, s, h, e, s') && !e.Arrives? && !e.Closes?
  {
    var name := names[h];
    assert HandlerInv(names, s, h);
    match s.pcs[h]
    case WantMap =>
      e := TakeMap;
      s' := SetPc(s, h, if name in s.table then WantRoom(s.table[name]) else Creating).(holder := Some(h));
    case Creating =>
      e := Create;
      s' := SetPeer(SetPc(s, h, LookUp), h, s.peers[h].(place := Some(Place(|s.rooms|, First))))
              .(rooms := s.rooms + [Room(name, Some(h), None, false, None)],
                table := s.table[name := |s.rooms|], holder := None);
    case LookUp =>
      e, s' := LookUpRoom, SetPc(s, h, if name in s.table then WantOwn(s.table[name]) else Done);
    case KeepLookUp =>
      e, s' := KeepLook, SetPc(s, h, if name in s.table then KeepWait(s.table[name]) else Done);
    case WantRemove(r, _, _) =>
      e, s' := Remove, SetHolder(SetPc(s, h, Done), r, None).(table := s.table - {name});
  }

  lemma RoomProgress(names: seq<string>, s: Relay, h: nat) returns (e: Event, s': Relay)
    requires RelayInv(names, s) && h < |s.pcs| && !WaitsForLock(s, h) && !WaitsForMap(s.pcs[h])
    requires !s.pcs[h].Creating? && !s.pcs[h].Relaying? && s.pcs[h] != Done
    ensures Step(names, s, h, e, s') && !e.Arrives? && !e.Closes?
  {
    assert HandlerInv(names, s, h) && LockInv(s, h);
    var r := s.pcs[h].room;
    match s.pcs[h]
    case WantRoom(_) =>
      e := TakeRoom;
      s' := SetHolder(SetPc(s, h, if IsFull(s.rooms[r]) then Refusing(r) else Joining(r)), r, Some(h));
    case Refusing(_) =>
      e, s' := Refuse, SetHolder(SetPc(s, h, Done), r, None).(holder := None);
    case Joining(_) =>
      e := Join;
      s' := SetPeer(SetPc(s, h, LookUp), h, s.peers[h].(place := Some(Place(r, Second))))
              .(rooms := s.rooms[r := s.rooms[r].(second := Some(h), holder := None)], holder := None);
    case WantOwn(_) => e, s' := OwnProgress(names, s, h, r);
    case KeepWait(_) => e, s' := KeepProgress(names, s, h, r);
    case Pinging(_, x, rest) => e, s' := PingProgress(names, s, h, r);
  }

  lemma OwnProgress(names: seq<string>, s: Relay, h: nat, r: nat) returns (e: Event, s': Relay)
    requires RelayInv(names, s) && h < |s.pcs| && s.pcs[h] == WantOwn(r) && r < |s.rooms| && s.rooms[r].holder.None?
    ensures Step(names, s, h, e, s') && !e.Arrives? && !e.Closes?
  {
    assert RoomInv(names, s, r);
    e := TakeOwn;
    if IsFull(s.rooms[r]) {
      var f, g := s.rooms[r].first.value, s.rooms[r].second.value;
      s' := SetPc(s, h, Relaying(r, f, g))
              .(rooms := s.rooms[r := s.rooms[r].(first := None, second := None, holder := Some(h))],
                peers := Bridge(s.peers, f, g));
    } else {
      s' := SetPc(s, h, KeepLookUp);
    }
  }

  lemma KeepProgress(names: seq<string>, s: Relay, h: nat, r: nat) returns (e: Event, s': Relay)
    requires RelayInv(names, s) && h < |s.pcs| && s.pcs[h] == KeepWait(r) && r < |s.rooms| && s.rooms[r].holder.None?
    ensures Step(names, s, h, e, s') && !e.Arrives? && !e.Closes?
  {
    e := KeepTake;
    s' := if s.rooms[r].first.Some?
          then SetHolder(SetPc(s, h, Pinging(r, s.rooms[r].first.value, PING)), r, Some(h))
          else SetPc(s, h, Done);
  }

  lemma PingProgress(names: seq<string>, s: Relay, h: nat, r: nat) returns (e: Event, s': Relay)
    requires RelayInv(names, s) && h < |s.pcs| && s.pcs[h].Pinging? && s.pcs[h].room == r
    ensures Step(names, s, h, e, s') && !e.Arrives? && !e.Closes?
  {
    assert HandlerInv(names, s, h) && LockInv(s, h) && RoomInv(names, s, r);
    var Pinging(_, x, rest) := s.pcs[h];
    if rest == [] {
      e, s' := PingDone, SetHolder(SetPc(s, h, KeepWait(r)), r, None);
    } else if s.peers[x].broken {
      e := PingFails;
      s' := SetPeer(SetHolder(SetPc(s, h, Done), r, None), x, s.peers[x].(broken := true));
    } else {
      e := PingWrite(1);
      s' := SetPeer(SetPc(s, h, Pinging(r, x, rest[1..])), x,
                    s.peers[x].(output := s.peers[x].output + rest[..1]));
    }
  }
}
