/** Every step of the relay keeps its structure. */
module RoomSteps {
  import opened Options
  import opened Rooms

  lemma StartHolds(names: seq<string>)
    ensures RelayInv(names, Start(names))
  {
  }

  // ----- three kinds of steps -----

  /** Only bytes, buffers and ends of streams change. */
  ghost predicate SameSeats(s: Relay, s': Relay) {
    && |s'.peers| == |s.peers|
    && forall x :: 0 <= x < |s.peers| ==>
         s'.peers[x].place == s.peers[x].place && (s'.peers[x].feed.None? <==> s.peers[x].feed.None?)
  }

  lemma StreamKeeps(names: seq<string>, s: Relay, s': Relay)
    requires RelayInv(names, s) && SameSeats(s, s') && s' == s.(peers := s'.peers)
    ensures RelayInv(names, s')
  {
    forall h | 0 <= h < |s'.pcs|
      ensures HandlerInv(names, s', h) && LockInv(s', h)
    {
      assert HandlerInv(names, s, h) && LockInv(s, h);
    }
    forall r | 0 <= r < |s'.rooms|
      ensures RoomInv(names, s', r)
    {
      assert RoomInv(names, s, r);
    }
  }

  /** The map's holder changes only by `h` taking or releasing it. */
  ghost predicate OwnChange(before: Option<nat>, after: Option<nat>, h: nat) {
    before == after || (before.None? && after == Some(h)) || (before == Some(h) && after.None?)
  }

  /** A handler moves on, taking or releasing at most the map. */
  lemma MapLockKeeps(names: seq<string>, s: Relay, h: nat, pc: Pc, holder: Option<nat>)
    requires RelayInv(names, s) && h < |s.pcs| && OwnChange(s.holder, holder, h)
    requires forall r: nat :: HoldsRoom(pc, r) <==> HoldsRoom(s.pcs[h], r)
    requires s.pcs[h].Relaying? || s.pcs[h].WantRemove? ==> pc.Relaying? || pc.WantRemove?
    requires var s' := SetPc(s, h, pc).(holder := holder); HandlerInv(names, s', h) && LockInv(s', h)
    ensures RelayInv(names, SetPc(s, h, pc).(holder := holder))
  {
    var s' := SetPc(s, h, pc).(holder := holder);
    forall g | 0 <= g < |s'.pcs| && g != h
      ensures HandlerInv(names, s', g) && LockInv(s', g)
    {
      assert HandlerInv(names, s, g) && LockInv(s, g);
    }
    forall r | 0 <= r < |s'.rooms|
      ensures RoomInv(names, s', r)
    {
      assert RoomInv(names, s, r);
    }
  }

  lemma OtherHandlerKeeps(names: seq<string>, s: Relay, h: nat, r: nat, pc: Pc, lock: Option<nat>,
                          holder: Option<nat>, g: nat)
    requires Sized(names, s) && h < |s.pcs| && r < |s.rooms| && g < |s.pcs| && g != h
    requires HandlerInv(names, s, g) && LockInv(s, g)
    requires OwnChange(s.holder, holder, h) && OwnChange(s.rooms[r].holder, lock, h)
    ensures var s' := SetHolder(SetPc(s, h, pc), r, lock).(holder := holder); HandlerInv(names, s', g) && LockInv(s', g)
  {
  }

  lemma OtherRoomKeeps(names: seq<string>, s: Relay, h: nat, r: nat, pc: Pc, lock: Option<nat>, holder: Option<nat>,
                       q: nat)
    requires Sized(names, s) && h < |s.pcs| && r < |s.rooms| && q < |s.rooms| && q != r
    requires RoomInv(names, s, q) && !HoldsRoom(s.pcs[h], q)
    ensures RoomInv(names, SetHolder(SetPc(s, h, pc), r, lock).(holder := holder), q)
  {
  }

  /** A handler moves on, taking or releasing the lock of one room. */
  lemma RoomLockKeeps(names: seq<string>, s: Relay, h: nat, r: nat, pc: Pc, lock: Option<nat>, holder: Option<nat>)
    requires RelayInv(names, s) && h < |s.pcs| && r < |s.rooms|
    requires OwnChange(s.holder, holder, h) && OwnChange(s.rooms[r].holder, lock, h)
    requires forall q: nat :: q != r ==> !HoldsRoom(s.pcs[h], q)
    requires var s' := SetHolder(SetPc(s, h, pc), r, lock).(holder := holder);
             HandlerInv(names, s', h) && LockInv(s', h) && RoomInv(names, s', r)
    ensures RelayInv(names, SetHolder(SetPc(s, h, pc), r, lock).(holder := holder))
  {
    var s' := SetHolder(SetPc(s, h, pc), r, lock).(holder := holder);
    forall g | 0 <= g < |s'.pcs| && g != h
      ensures HandlerInv(names, s', g) && LockInv(s', g)
    {
      OtherHandlerKeeps(names, s, h, r, pc, lock, holder, g);
    }
    forall q | 0 <= q < |s'.rooms| && q != r
      ensures RoomInv(names, s', q)
    {
      OtherRoomKeeps(names, s, h, r, pc, lock, holder, q);
    }
  }

  // ----- the steps one by one -----

  lemma MapStepKeeps(names: seq<string>, s: Relay, h: nat, e: Event, s': Relay)
    requires e.TakeMap? || e.AnswerFails? || e.LookUpRoom? || e.KeepLook? || e.EndRelay?
    requires RelayInv(names, s) && Step(names, s, h, e, s')
    ensures RelayInv(names, s')
  {
    assert HandlerInv(names, s, h) && LockInv(s, h);
    if e.EndRelay? {
      assert s'.rooms == s.rooms;
    }
    MapLockKeeps(names, s, h, s'.pcs[h], s'.holder);
  }

  lemma RoomLockStepKeeps(names: seq<string>, s: Relay, h: nat, e: Event, s': Relay)
    requires e.TakeRoom? || e.Refuse? || e.JoinFails? || e.PingDone?
    requires RelayInv(names, s) && Step(names, s, h, e, s')
    ensures RelayInv(names, s')
  {
    var r := s.pcs[h].room;
    assert HandlerInv(names, s, h) && LockInv(s, h) && RoomInv(names, s, r);
    RoomLockKeeps(names, s, h, r, s'.pcs[h], s'.rooms[r].holder, s'.holder);
  }

  lemma KeepTakeKeeps(names: seq<string>, s: Relay, h: nat, s': Relay)
    requires RelayInv(names, s) && Step(names, s, h, KeepTake, s')
    ensures RelayInv(names, s')
  {
    var r := s.pcs[h].room;
    assert HandlerInv(names, s, h) && LockInv(s, h) && RoomInv(names, s, r);
    if s.rooms[r].first.Some? {
      RoomLockKeeps(names, s, h, r, s'.pcs[h], Some(h), s.holder);
    } else {
      MapLockKeeps(names, s, h, Done, s.holder);
    }
  }

  lemma PingStepKeeps(names: seq<string>, s: Relay, h: nat, e: Event, s': Relay)
    requires e.PingWrite? || e.PingFails?
    requires RelayInv(names, s) && Step(names, s, h, e, s')
    ensures RelayInv(names, s')
  {
    var r := s.pcs[h].room;
    assert HandlerInv(names, s, h) && LockInv(s, h) && RoomInv(names, s, r);
    var moved := s'.(peers := s.peers);
    if e.PingWrite? {
      MapLockKeeps(names, s, h, s'.pcs[h], s.holder);
    } else {
      RoomLockKeeps(names, s, h, r, Done, None, s.holder);
    }
    StreamKeeps(names, moved, s');
  }

  lemma StreamStepKeeps(names: seq<string>, s: Relay, h: nat, e: Event, s': Relay)
    requires e.CopyRead? || e.CopyWrite? || e.CopyEof? || e.CopyFails? || e.Arrives? || e.Closes?
    requires RelayInv(names, s) && Step(names, s, h, e, s')
    ensures RelayInv(names, s')
  {
    StreamKeeps(names, s, s');
  }

  lemma CreateKeeps(names: seq<string>, s: Relay, h: nat, s': Relay)
    requires RelayInv(names, s) && Step(names, s, h, Create, s')
    ensures RelayInv(names, s')
  {
    assert HandlerInv(names, s, h) && LockInv(s, h);
    forall g | 0 <= g < |s'.pcs|
      ensures HandlerInv(names, s', g) && LockInv(s', g)
    {
      assert HandlerInv(names, s, g) && LockInv(s, g);
    }
    forall r | 0 <= r < |s'.rooms|
      ensures RoomInv(names, s', r)
    {
      assert r < |s.rooms| ==> RoomInv(names, s, r);
    }
  }

  lemma JoinKeeps(names: seq<string>, s: Relay, h: nat, s': Relay)
    requires RelayInv(names, s) && Step(names, s, h, Join, s')
    ensures RelayInv(names, s')
  {
    assert HandlerInv(names, s, h) && LockInv(s, h);
    forall g | 0 <= g < |s'.pcs|
      ensures HandlerInv(names, s', g) && LockInv(s', g)
    {
      assert HandlerInv(names, s, g) && LockInv(s, g);
    }
    forall r | 0 <= r < |s'.rooms|
      ensures RoomInv(names, s', r)
    {
      assert RoomInv(names, s, r);
    }
  }

  lemma RemoveKeeps(names: seq<string>, s: Relay, h: nat, s': Relay)
    requires RelayInv(names, s) && Step(names, s, h, Remove, s')
    ensures RelayInv(names, s')
  {
    var r := s.pcs[h].room;
    assert HandlerInv(names, s, h) && LockInv(s, h) && RoomInv(names, s, r);
    forall g | 0 <= g < |s'.pcs|
      ensures HandlerInv(names, s', g) && LockInv(s', g)
    {
      assert HandlerInv(names, s, g) && LockInv(s, g);
    }
    forall q | 0 <= q < |s'.rooms|
      ensures RoomInv(names, s', q)
    {
      assert RoomInv(names, s, q);
    }
  }

  lemma TakeOwnKeeps(names: seq<string>, s: Relay, h: nat, s': Relay)
    requires RelayInv(names, s) && Step(names, s, h, TakeOwn, s')
    ensures RelayInv(names, s')
  {
    var r := s.pcs[h].room;
    assert HandlerInv(names, s, h) && LockInv(s, h) && RoomInv(names, s, r);
    if !IsFull(s.rooms[r]) {
      MapLockKeeps(names, s, h, KeepLookUp, s.holder);
    } else {
      TakeBothKeeps(names, s, h, r, s.rooms[r].first.value, s.rooms[r].second.value, s');
    }
  }

  lemma TakeBothKeeps(names: seq<string>, s: Relay, h: nat, r: nat, f: nat, g: nat, s': Relay)
    requires RelayInv(names, s) && h < |s.pcs| && r < |s.rooms| && f < |s.peers| && g < |s.peers|
    requires s.pcs[h] == WantOwn(r) && s.rooms[r].holder.None?
    requires s.rooms[r].first == Some(f) && s.rooms[r].second == Some(g)
    requires s' == SetPc(s, h, Relaying(r, f, g)).(
                     rooms := s.rooms[r := s.rooms[r].(first := None, second := None, holder := Some(h))],
                     peers := Bridge(s.peers, f, g))
    ensures RelayInv(names, s')
  {
    assert HandlerInv(names, s, h) && LockInv(s, h) && RoomInv(names, s, r);
    forall k | 0 <= k < |s'.pcs|
      ensures HandlerInv(names, s', k) && LockInv(s', k)
    {
      assert HandlerInv(names, s, k) && LockInv(s, k);
    }
    forall q | 0 <= q < |s'.rooms|
      ensures RoomInv(names, s', q)
    {
      assert RoomInv(names, s, q);
    }
  }

  lemma StepKeeps(names: seq<string>, s: Relay, h: nat, e: Event, s': Relay)
    requires RelayInv(names, s) && Step(names, s, h, e, s')
    ensures RelayInv(names, s')
  {
    match e
    case Create => CreateKeeps(names, s, h, s');
    case Join => JoinKeeps(names, s, h, s');
    case Remove => RemoveKeeps(names, s, h, s');
    case TakeOwn => TakeOwnKeeps(names, s, h, s');
    case KeepTake => KeepTakeKeeps(names, s, h, s');
    case PingWrite(_) => PingStepKeeps(names, s, h, e, s');
    case PingFails => PingStepKeeps(names, s, h, e, s');
    case TakeRoom => RoomLockStepKeeps(names, s, h, e, s');
    case Refuse => RoomLockStepKeeps(names, s, h, e, s');
    case JoinFails => RoomLockStepKeeps(names, s, h, e, s');
    case PingDone => RoomLockStepKeeps(names, s, h, e, s');
    case TakeMap => MapStepKeeps(names, s, h, e, s');
    case AnswerFails => MapStepKeeps(names, s, h, e, s');
    case LookUpRoom => MapStepKeeps(names, s, h, e, s');
    case KeepLook => MapStepKeeps(names, s, h, e, s');
    case EndRelay => MapStepKeeps(names, s, h, e, s');
    case _ => StreamStepKeeps(names, s, h, e, s');
  }
}
