/** One direction of the data connection, from the cloned `OwnedSender`s of the
    sending client, over its socket-writer task, the relay's copy loop and two
    TCP streams, to the socket-reader task of the receiving client and the
    queue behind its `OwnedReceiver`.

    Every await point is a step of its own and every read and write moves an
    arbitrary number of bytes, so a run is one segmentation of the stream. */
module Transport {
  import opened Bytes
  import opened Framing

  datatype Path = Path(
    queue: seq<Bytes>,   // frames in the bounded channel to the socket writer
    writing: Bytes,      // rest of the frame the socket writer is writing
    uplink: Bytes,       // sent by the client, not yet read by the relay
    copy: Bytes,         // rest of the relay's copy buffer
    downlink: Bytes,     // sent by the relay, not yet read by the other client
    partial: Bytes,      // bytes `read_exact` has taken of the current frame
    inbox: seq<Bytes>,   // payloads in the bounded channel to the session
    stopped: bool)       // the reader task met a bad magic and ended

  const IDLE: Path := Path([], [], [], [], [], [], [], false)

  /** All bytes under way, in the order in which they will be parsed. */
  function Stream(p: Path): Bytes {
    p.partial + Behind(p)
  }

  /** ... without those the reader has already taken. */
  function Behind(p: Path): Bytes {
    p.downlink + (p.copy + (p.uplink + (p.writing + Concat(p.queue))))
  }

  /** The messages under way, oldest first: the queue the path stands for. */
  function InFlight(p: Path): seq<Bytes> {
    p.inbox + ParseAll(Stream(p))
  }

  /** How many more bytes the current `read_exact` asks for. */
  function Needed(partial: Bytes): nat {
    if |partial| < 4 then 4 - |partial|
    else if |partial| < 8 then 8 - |partial|
    else if |partial| < 8 + FromLE(partial[4..8]) then 8 + FromLE(partial[4..8]) - |partial|
    else 0
  }

  predicate MagicFailed(partial: Bytes) {
    |partial| >= 4 && partial[..4] != MAGIC
  }

  predicate FrameComplete(partial: Bytes) {
    |partial| >= 8 && !MagicFailed(partial) && Needed(partial) == 0
  }

  // ----- steps -----

  predicate TakeFrame(p: Path, p': Path) {
    p.writing == [] && p.queue != [] && p' == p.(writing := p.queue[0], queue := p.queue[1..])
  }

  predicate SocketWrite(p: Path, p': Path, k: nat) {
    0 < k <= |p.writing| && p' == p.(writing := p.writing[k..], uplink := p.uplink + p.writing[..k])
  }

  predicate RelayRead(p: Path, p': Path, k: nat) {
    p.copy == [] && 0 < k <= |p.uplink| && k <= COPY_BUFFER
    && p' == p.(copy := p.uplink[..k], uplink := p.uplink[k..])
  }

  predicate RelayWrite(p: Path, p': Path, k: nat) {
    0 < k <= |p.copy| && p' == p.(copy := p.copy[k..], downlink := p.downlink + p.copy[..k])
  }

  predicate ClientRead(p: Path, p': Path, k: nat) {
    !p.stopped && !MagicFailed(p.partial) && 0 < k <= Needed(p.partial) && k <= |p.downlink|
    && p' == p.(partial := p.partial + p.downlink[..k], downlink := p.downlink[k..])
  }

  predicate StopReader(p: Path, p': Path) {
    !p.stopped && MagicFailed(p.partial) && p' == p.(stopped := true)
  }

  predicate Deliver(p: Path, p': Path, capacity: nat) {
    !p.stopped && FrameComplete(p.partial) && |p.inbox| < capacity
    && p' == p.(inbox := p.inbox + [p.partial[8..]], partial := [])
  }

  /** A step of the path on its own. */
  ghost predicate Internal(p: Path, p': Path, capacity: nat) {
    || TakeFrame(p, p')
    || (exists k: nat :: SocketWrite(p, p', k))
    || (exists k: nat :: RelayRead(p, p', k))
    || (exists k: nat :: RelayWrite(p, p', k))
    || (exists k: nat :: ClientRead(p, p', k))
    || StopReader(p, p')
    || Deliver(p, p', capacity)
  }

  /** A task with a clone of the sender puts one message on the path. */
  predicate Enqueue(p: Path, p': Path, m: Bytes, capacity: nat) {
    Sendable(m) && |p.queue| < capacity && p' == p.(queue := p.queue + [Frame(m)])
  }

  /** The session takes the oldest payload. */
  predicate Dequeue(p: Path, p': Path, m: Bytes) {
    p.inbox != [] && m == p.inbox[0] && p' == p.(inbox := p.inbox[1..])
  }

  // ----- what every step keeps -----

  /** The stream is a sequence of whole frames, the reader is inside the first
      of them, and it has not stopped. */
  ghost predicate PathInv(p: Path) {
    && Stream(p) == FrameAll(ParseAll(Stream(p)))
    && (forall f :: f in p.queue ==> |f| > 0)
    && (|p.partial| >= 8 ==> |p.partial| <= 8 + FromLE(p.partial[4..8]))
    && !p.stopped
  }

  lemma SplitAt(s: Bytes, k: nat)
    requires k <= |s|
    ensures s[..k] + s[k..] == s
  {
  }

  lemma MoveLeft(a: Bytes, moved: Bytes, b: Bytes, rest: Bytes)
    ensures (a + moved) + (b + rest) == a + ((moved + b) + rest)
  {
  }

  lemma CopyKeepsStream(p: Path, p': Path)
    requires TakeFrame(p, p') || (exists k: nat :: SocketWrite(p, p', k)) || (exists k: nat :: RelayRead(p, p', k))
          || (exists k: nat :: RelayWrite(p, p', k)) || (exists k: nat :: ClientRead(p, p', k))
    ensures Stream(p') == Stream(p)
  {
    var tail := Concat(p.queue);
    if TakeFrame(p, p') {
      assert p.writing + Concat(p.queue) == p'.writing + Concat(p'.queue);
    } else if k: nat :| SocketWrite(p, p', k) {
      SplitAt(p.writing, k);
      MoveLeft(p.uplink, p.writing[..k], p.writing[k..], tail);
    } else if k: nat :| RelayRead(p, p', k) {
      SplitAt(p.uplink, k);
      MoveLeft([], p.uplink[..k], p.uplink[k..], p.writing + tail);
      assert p'.copy + (p'.uplink + (p.writing + tail)) == p.copy + (p.uplink + (p.writing + tail));
    } else if k: nat :| RelayWrite(p, p', k) {
      SplitAt(p.copy, k);
      MoveLeft(p.downlink, p.copy[..k], p.copy[k..], p.uplink + (p.writing + tail));
    } else if k: nat :| ClientRead(p, p', k) {
      SplitAt(p.downlink, k);
      MoveLeft(p.partial, p.downlink[..k], p.downlink[k..], p.copy + (p.uplink + (p.writing + tail)));
    }
  }

  /** The start of the stream, as the reader sees it. */
  lemma HeadFrame(p: Path)
    requires PathInv(p) && Stream(p) != []
    ensures ParseAll(Stream(p)) != []
    ensures var m := ParseAll(Stream(p))[0];
            Sendable(m) && Stream(p) == Frame(m) + FrameAll(ParseAll(Stream(p))[1..]) && |Frame(m)| == 8 + |m|
    ensures !MagicFailed(p.partial)
    ensures |p.partial| >= 8 ==> FromLE(p.partial[4..8]) == |ParseAll(Stream(p))[0]|
    ensures |p.partial| <= 8 + |ParseAll(Stream(p))[0]|
    ensures FrameComplete(p.partial) <==> |p.partial| == 8 + |ParseAll(Stream(p))[0]|
  {
    var s := Stream(p);
    ParsedAreSendable(s);
    var m, rest := ParseAll(s)[0], FrameAll(ParseAll(s)[1..]);
    HeaderFacts(m, rest);
    assert |p.partial| >= 4 ==> p.partial[..4] == s[..4];
    assert |p.partial| >= 8 ==> p.partial[4..8] == s[4..8];
  }

  /** A copy step keeps the invariant and delivers, loses and reorders nothing. */
  lemma CopyStep(p: Path, p': Path, capacity: nat)
    requires PathInv(p) && Internal(p, p', capacity) && !Deliver(p, p', capacity)
    ensures PathInv(p') && InFlight(p') == InFlight(p)
  {
    if StopReader(p, p') {
      assert Stream(p) != [];
      HeadFrame(p);
    } else {
      CopyKeepsStream(p, p');
      if k: nat :| ClientRead(p, p', k) {
        if |p.partial| >= 8 {
          assert p'.partial[4..8] == p.partial[4..8];
        }
      }
    }
  }

  lemma DropHead(partial: Bytes, after: Bytes, ms: seq<Bytes>)
    requires ms != [] && AllSendable(ms)
    requires partial + after == Frame(ms[0]) + FrameAll(ms[1..]) && |partial| == |Frame(ms[0])|
    ensures partial[8..] == ms[0] && after == FrameAll(ms[1..]) && ParseAll(after) == ms[1..]
  {
    var s := partial + after;
    assert partial == s[..|partial|] == Frame(ms[0]);
    assert after == s[|partial|..] == FrameAll(ms[1..]);
    RoundTrip(ms[1..]);
  }

  lemma DeliverStep(p: Path, p': Path, capacity: nat)
    requires PathInv(p) && Deliver(p, p', capacity)
    ensures PathInv(p') && InFlight(p') == InFlight(p)
  {
    assert |p.partial| > 0;
    HeadFrame(p);
    ParsedAreSendable(Stream(p));
    DropHead(p.partial, Behind(p), ParseAll(Stream(p)));
    DeliveredInOrder(p, p', ParseAll(Stream(p)));
  }

  lemma DeliveredInOrder(p: Path, p': Path, ms: seq<Bytes>)
    requires ms != [] && |p.partial| >= 8 && p.partial[8..] == ms[0]
    requires p' == p.(inbox := p.inbox + [p.partial[8..]], partial := [])
    ensures Stream(p') == Behind(p)
    ensures p'.inbox + ms[1..] == p.inbox + ms
  {
    assert Behind(p') == Behind(p);
    assert [] + Behind(p) == Behind(p);
    assert ms == [ms[0]] + ms[1..];
  }

  /** Every step of the path keeps it a faithful queue. */
  lemma InternalKeeps(p: Path, p': Path, capacity: nat)
    requires PathInv(p) && Internal(p, p', capacity)
    ensures PathInv(p') && InFlight(p') == InFlight(p)
  {
    if Deliver(p, p', capacity) {
      DeliverStep(p, p', capacity);
    } else {
      CopyStep(p, p', capacity);
    }
  }

  lemma EnqueueAppends(p: Path, p': Path, m: Bytes, capacity: nat)
    requires PathInv(p) && Enqueue(p, p', m, capacity)
    ensures PathInv(p') && InFlight(p') == InFlight(p) + [m]
  {
    StreamGrows(p, p', m);
    FrameAppended(Stream(p), m);
    HeaderFacts(m, []);
    AppendedLast(p.inbox, ParseAll(Stream(p)), m);
  }

  lemma StreamGrows(p: Path, p': Path, m: Bytes)
    requires p' == p.(queue := p.queue + [Frame(m)])
    ensures Stream(p') == Stream(p) + Frame(m)
  {
    ConcatOne(p.queue, Frame(m));
    AppendInside(p.partial, p.downlink, p.copy, p.uplink, p.writing, Concat(p.queue), Frame(m));
  }

  lemma AppendInside(a: Bytes, b: Bytes, c: Bytes, d: Bytes, e: Bytes, f: Bytes, g: Bytes)
    ensures a + (b + (c + (d + (e + (f + g))))) == a + (b + (c + (d + (e + f)))) + g
  {
  }

  lemma AppendedLast(xs: seq<Bytes>, ys: seq<Bytes>, m: Bytes)
    ensures xs + (ys + [m]) == xs + ys + [m]
  {
  }

  lemma FrameAppended(s: Bytes, m: Bytes)
    requires s == FrameAll(ParseAll(s)) && Sendable(m)
    ensures ParseAll(s + Frame(m)) == ParseAll(s) + [m]
    ensures s + Frame(m) == FrameAll(ParseAll(s) + [m])
  {
    var ms := ParseAll(s);
    FrameAllOne(ms, m);
    ParsedAreSendable(s);
    RoundTrip(ms + [m]);
  }

  lemma DequeueTakesOldest(p: Path, p': Path, m: Bytes)
    requires PathInv(p) && Dequeue(p, p', m)
    ensures PathInv(p') && InFlight(p) == [m] + InFlight(p')
  {
    assert Stream(p') == Stream(p);
    assert p.inbox == [m] + p'.inbox;
  }

  // ----- whole runs of the path -----

  datatype Action = Send(m: Bytes) | Copy | Receive(m: Bytes)

  ghost predicate PathStep(p: Path, a: Action, p': Path, capacity: nat) {
    match a
    case Send(m) => Enqueue(p, p', m, capacity)
    case Copy => Internal(p, p', capacity)
    case Receive(m) => Dequeue(p, p', m)
  }

  ghost predicate PathRun(states: seq<Path>, actions: seq<Action>, capacity: nat) {
    && |states| == |actions| + 1
    && states[0] == IDLE
    && forall i, j :: 0 <= i < |actions| && j == i + 1 ==> PathStep(states[i], actions[i], states[j], capacity)
  }

  function SentBy(a: Action): seq<Bytes> {
    if a.Send? then [a.m] else []
  }

  function ReceivedBy(a: Action): seq<Bytes> {
    if a.Receive? then [a.m] else []
  }

  function Sent(actions: seq<Action>): seq<Bytes> {
    if actions == [] then [] else Sent(actions[..|actions| - 1]) + SentBy(actions[|actions| - 1])
  }

  function Received(actions: seq<Action>): seq<Bytes> {
    if actions == [] then [] else Received(actions[..|actions| - 1]) + ReceivedBy(actions[|actions| - 1])
  }

  lemma StepIsFifo(p: Path, a: Action, p': Path, sent: seq<Bytes>, received: seq<Bytes>, capacity: nat)
    requires PathInv(p) && PathStep(p, a, p', capacity) && sent == received + InFlight(p)
    ensures PathInv(p')
    ensures sent + SentBy(a) == received + ReceivedBy(a) + InFlight(p')
  {
    match a
    case Send(m) =>
      EnqueueAppends(p, p', m, capacity);
      FifoSends(sent, received, InFlight(p), m);
    case Copy =>
      InternalKeeps(p, p', capacity);
      FifoRests(sent, received, InFlight(p));
    case Receive(m) =>
      DequeueTakesOldest(p, p', m);
      FifoReceives(sent, received, m, InFlight(p'));
  }

  lemma FifoSends(sent: seq<Bytes>, received: seq<Bytes>, ms: seq<Bytes>, m: Bytes)
    requires sent == received + ms
    ensures sent + [m] == received + [] + (ms + [m])
  {
  }

  lemma FifoRests(sent: seq<Bytes>, received: seq<Bytes>, ms: seq<Bytes>)
    requires sent == received + ms
    ensures sent + [] == received + [] + ms
  {
  }

  lemma FifoReceives(sent: seq<Bytes>, received: seq<Bytes>, m: Bytes, ms: seq<Bytes>)
    requires sent == received + ([m] + ms)
    ensures sent + [] == received + [m] + ms
  {
  }

  lemma ShorterRun(states: seq<Path>, actions: seq<Action>, capacity: nat)
    requires PathRun(states, actions, capacity) && |actions| > 0
    ensures PathRun(states[..|actions|], actions[..|actions| - 1], capacity)
    ensures PathStep(states[|actions| - 1], actions[|actions| - 1], states[|actions|], capacity)
  {
    var n := |actions|;
    forall i, j | 0 <= i < n - 1 && j == i + 1
      ensures PathStep(states[..n][i], actions[..n - 1][i], states[..n][j], capacity)
    {
      assert PathStep(states[i], actions[i], states[j], capacity);
    }
  }

  /** Over any interleaving of sending tasks, copy steps and reads, what was
      sent is what was received followed by what is under way, in order: no
      frame is torn, lost, repeated or overtaken. */
  lemma {:induction false} PathIsFifo(states: seq<Path>, actions: seq<Action>, capacity: nat)
    requires PathRun(states, actions, capacity)
    ensures PathInv(states[|actions|])
    ensures Sent(actions) == Received(actions) + InFlight(states[|actions|])
    decreases |actions|
  {
    if actions == [] {
      IdleIsEmpty();
    } else {
      var n := |actions|;
      ShorterRun(states, actions, capacity);
      PathIsFifo(states[..n], actions[..n - 1], capacity);
      StepIsFifo(states[n - 1], actions[n - 1], states[n],
                 Sent(actions[..n - 1]), Received(actions[..n - 1]), capacity);
    }
  }

  lemma IdleIsEmpty()
    ensures PathInv(IDLE) && InFlight(IDLE) == []
  {
    assert Stream(IDLE) == [];
  }

  /** Bytes that have left the sender's socket and are not yet a payload. */
  function OnTheWire(p: Path): Bytes {
    p.partial + (p.downlink + (p.copy + p.uplink))
  }

  lemma StreamSplits(p: Path)
    ensures Stream(p) == OnTheWire(p) + (p.writing + Concat(p.queue))
  {
  }

  lemma Regroup(taken: seq<Bytes>, ms: seq<Bytes>, wire: Bytes, rest: Bytes)
    requires FrameAll(ms) == wire + rest
    ensures FrameAll(taken) + wire + rest == FrameAll(taken + ms)
  {
    FrameAllAppend(taken, ms);
  }

  lemma WireForm(p: Path, sent: seq<Bytes>, received: seq<Bytes>)
    requires PathInv(p) && sent == received + InFlight(p)
    ensures FrameAll(received + p.inbox) + OnTheWire(p) + (p.writing + Concat(p.queue)) == FrameAll(sent)
  {
    var ms := ParseAll(Stream(p));
    StreamSplits(p);
    Regroup(received + p.inbox, ms, OnTheWire(p), p.writing + Concat(p.queue));
    assert received + (p.inbox + ms) == received + p.inbox + ms;
  }

  function Frames(ms: seq<Bytes>): seq<Bytes> {
    seq(|ms|, i requires 0 <= i < |ms| => Frame(ms[i]))
  }

  predicate IsSuffix(end: Bytes, whole: Bytes) {
    |end| <= |whole| && end == whole[|whole| - |end|..]
  }

  /** The channel holds the whole frames of the messages from the `n`-th on, and
      what is left to write is the end of the frame before them. */
  ghost predicate QueueHolds(p: Path, sent: seq<Bytes>, n: nat) {
    && n <= |sent| && p.queue == Frames(sent[n..])
    && (p.writing == [] || (n > 0 && IsSuffix(p.writing, Frame(sent[n - 1]))))
  }

  lemma StepKeepsQueue(p: Path, a: Action, p': Path, sent: seq<Bytes>, n: nat, capacity: nat) returns (n': nat)
    requires QueueHolds(p, sent, n) && PathStep(p, a, p', capacity)
    ensures QueueHolds(p', sent + SentBy(a), n')
  {
    n' := if a.Copy? && TakeFrame(p, p') then n + 1 else n;
    if a.Send? {
      FramesGrow(sent, n, a.m);
    } else {
      assert sent + SentBy(a) == sent;
      if n' == n + 1 {
        FramesShrink(sent, n);
      } else if a.Copy? && p'.writing != p.writing {
        var k: nat :| SocketWrite(p, p', k);
        SuffixOfSuffix(p.writing, Frame(sent[n - 1]), k);
      }
    }
  }

  lemma FramesGrow(sent: seq<Bytes>, n: nat, m: Bytes)
    requires n <= |sent|
    ensures Frames((sent + [m])[n..]) == Frames(sent[n..]) + [Frame(m)]
    ensures n > 0 ==> (sent + [m])[n - 1] == sent[n - 1]
  {
    assert (sent + [m])[n..] == sent[n..] + [m];
  }

  lemma FramesShrink(sent: seq<Bytes>, n: nat)
    requires n < |sent|
    ensures Frames(sent[n..])[0] == Frame(sent[n]) && Frames(sent[n..])[1..] == Frames(sent[n + 1..])
  {
    assert sent[n..][0] == sent[n] && sent[n..][1..] == sent[n + 1..];
  }

  lemma SuffixOfSuffix(end: Bytes, whole: Bytes, k: nat)
    requires IsSuffix(end, whole) && k <= |end|
    ensures IsSuffix(end[k..], whole)
  {
  }

  lemma {:induction false} QueueIsFrames(states: seq<Path>, actions: seq<Action>, capacity: nat) returns (n: nat)
    requires PathRun(states, actions, capacity)
    ensures QueueHolds(states[|actions|], Sent(actions), n)
    decreases |actions|
  {
    if actions == [] {
      n := 0;
    } else {
      var last := |actions| - 1;
      ShorterRun(states, actions, capacity);
      n := QueueIsFrames(states[..last + 1], actions[..last], capacity);
      n := StepKeepsQueue(states[last], actions[last], states[last + 1], Sent(actions[..last]), n, capacity);
    }
  }

  lemma {:induction false} ConcatFrames(ms: seq<Bytes>)
    ensures Concat(Frames(ms)) == FrameAll(ms)
  {
    if ms != [] {
      ConcatFrames(ms[1..]);
      assert Frames(ms)[1..] == Frames(ms[1..]);
    }
  }

  lemma DropTail(a: Bytes, b: Bytes, tail: Bytes)
    requires a + tail == b + tail
    ensures a == b
  {
    assert |a| == |b|;
    assert a == (a + tail)[..|a|] && b == (b + tail)[..|b|];
  }

  lemma CutAt(p: Path, sent: seq<Bytes>, n: nat, left: Bytes)
    requires QueueHolds(p, sent, n) && left + (p.writing + Concat(p.queue)) == FrameAll(sent)
    ensures left + p.writing == FrameAll(sent[..n])
  {
    ConcatFrames(sent[n..]);
    FrameAllAppend(sent[..n], sent[n..]);
    assert sent[..n] + sent[n..] == sent;
    Associates(left, p.writing, Concat(p.queue));
    DropTail(left + p.writing, FrameAll(sent[..n]), FrameAll(sent[n..]));
  }

  /** The bytes that left the sender's socket so far are the frames of the first
      `n` messages in channel order but for what is left to write of the `n`-th;
      behind it the channel holds whole frames. */
  lemma WireHoldsWholeFrames(states: seq<Path>, actions: seq<Action>, capacity: nat) returns (n: nat)
    requires PathRun(states, actions, capacity)
    ensures n <= |Sent(actions)|
    ensures var p, sent := states[|actions|], Sent(actions);
            && FrameAll(Received(actions) + p.inbox) + OnTheWire(p) + p.writing == FrameAll(sent[..n])
            && p.queue == Frames(sent[n..])
            && (p.writing == [] || (n > 0 && IsSuffix(p.writing, Frame(sent[n - 1]))))
  {
    var p, sent := states[|actions|], Sent(actions);
    PathIsFifo(states, actions, capacity);
    WireForm(p, sent, Received(actions));
    n := QueueIsFrames(states, actions, capacity);
    CutAt(p, sent, n, FrameAll(Received(actions) + p.inbox) + OnTheWire(p));
  }

  // ----- any stream at all -----

  /** What holds of the reader whatever arrives: it is inside one frame, or has met
      a bad magic and may have stopped there. */
  ghost predicate ReaderInv(p: Path) {
    && (|p.partial| > 4 ==> !MagicFailed(p.partial))
    && (|p.partial| >= 8 ==> |p.partial| <= 8 + FromLE(p.partial[4..8]))
    && (p.stopped ==> MagicFailed(p.partial))
  }

  lemma AnyStreamKeeps(p: Path, p': Path, capacity: nat)
    requires ReaderInv(p) && Internal(p, p', capacity)
    ensures ReaderInv(p') && InFlight(p') == InFlight(p)
  {
    if Deliver(p, p', capacity) {
      DeliverAny(p, p');
    } else if StopReader(p, p') {
    } else {
      CopyKeepsStream(p, p');
      if k: nat :| ClientRead(p, p', k) {
        ReadOnInside(p, p', k);
      }
    }
  }

  lemma ReadOnInside(p: Path, p': Path, k: nat)
    requires ReaderInv(p) && ClientRead(p, p', k)
    ensures ReaderInv(p')
  {
    assert |p.partial| >= 4 ==> p'.partial[..4] == p.partial[..4];
    assert |p.partial| >= 8 ==> p'.partial[4..8] == p.partial[4..8];
  }

  lemma DeliverAny(p: Path, p': Path)
    requires ReaderInv(p) && FrameComplete(p.partial)
    requires p' == p.(inbox := p.inbox + [p.partial[8..]], partial := [])
    ensures ReaderInv(p') && InFlight(p') == InFlight(p)
  {
    FrameFirst(p.partial, Behind(p));
    DeliveredInOrder(p, p', [p.partial[8..]] + ParseAll(Behind(p)));
  }

  lemma FrameFirst(partial: Bytes, behind: Bytes)
    requires FrameComplete(partial) && |partial| <= 8 + FromLE(partial[4..8])
    ensures ParseAll(partial + behind) == [partial[8..]] + ParseAll(behind)
  {
    var s := partial + behind;
    assert s[..4] == partial[..4] && s[4..8] == partial[4..8];
    assert s[8..|partial|] == partial[8..] && s[|partial|..] == behind;
  }

  ghost predicate IsArrival(states: seq<Path>, stream: Bytes, capacity: nat) {
    && |states| > 0 && states[0] == IDLE.(downlink := stream)
    && forall i, j :: 0 <= i < |states| && j == i + 1 < |states| ==> Internal(states[i], states[j], capacity)
  }

  lemma {:induction false} ArrivalKeeps(states: seq<Path>, stream: Bytes, capacity: nat)
    requires IsArrival(states, stream, capacity)
    ensures var p := states[|states| - 1]; ReaderInv(p) && InFlight(p) == ParseAll(stream)
    decreases |states|
  {
    var n := |states|;
    if n == 1 {
      assert Stream(states[0]) == stream;
    } else {
      ArrivalKeeps(states[..n - 1], stream, capacity);
      assert Internal(states[n - 2], states[n - 1], capacity);
      AnyStreamKeeps(states[n - 2], states[n - 1], capacity);
    }
  }

  ghost predicate AtRest(p: Path, capacity: nat) {
    forall p' :: !Internal(p, p', capacity)
  }

  /** Whatever bytes arrive, and however they are cut: the reader delivers, in order,
      messages that parsing the bytes gives, and has delivered all of them when it
      stopped, or when nothing can move although the session's queue has room.  It
      stops exactly when it meets four bytes that are not the magic. */
  lemma ReaderDelivers(states: seq<Path>, stream: Bytes, capacity: nat)
    requires IsArrival(states, stream, capacity)
    ensures var p := states[|states| - 1];
            && p.inbox <= ParseAll(stream)
            && (p.stopped ==> p.inbox == ParseAll(stream))
            && (AtRest(p, capacity) && |p.inbox| < capacity ==>
                  p.inbox == ParseAll(stream) && (p.stopped <==> ParseOne(Stream(p)).BadMagic?))
  {
    ArrivalKeeps(states, stream, capacity);
    var p := states[|states| - 1];
    if p.stopped {
      assert Stream(p)[..4] == p.partial[..4];
      assert ParseAll(Stream(p)) == [];
    } else if AtRest(p, capacity) && |p.inbox| < capacity && !ParseOne(Stream(p)).Truncated? {
      var p' := SomethingMoves(p, capacity);
    }
  }

  lemma SomethingMoves(p: Path, capacity: nat) returns (p': Path)
    requires ReaderInv(p) && !p.stopped && |p.inbox| < capacity && !ParseOne(Stream(p)).Truncated?
    ensures Internal(p, p', capacity)
  {
    if MagicFailed(p.partial) {
      p' := p.(stopped := true);
      assert StopReader(p, p');
    } else if FrameComplete(p.partial) {
      p' := p.(inbox := p.inbox + [p.partial[8..]], partial := []);
      assert Deliver(p, p', capacity);
    } else {
      assert Behind(p) == [] ==> Stream(p) == p.partial;
      p' := BytesMove(p, capacity);
    }
  }

  lemma BytesMove(p: Path, capacity: nat) returns (p': Path)
    requires !p.stopped && !MagicFailed(p.partial) && !FrameComplete(p.partial) && Behind(p) != []
    ensures Internal(p, p', capacity)
  {
    if p.downlink != [] {
      p' := p.(partial := p.partial + p.downlink[..1], downlink := p.downlink[1..]);
      assert ClientRead(p, p', 1);
    } else if p.copy != [] {
      p' := p.(copy := p.copy[1..], downlink := p.downlink + p.copy[..1]);
      assert RelayWrite(p, p', 1);
    } else if p.uplink != [] {
      p' := p.(copy := p.uplink[..1], uplink := p.uplink[1..]);
      assert RelayRead(p, p', 1);
    } else if p.writing != [] {
      p' := p.(writing := p.writing[1..], uplink := p.uplink + p.writing[..1]);
      assert SocketWrite(p, p', 1);
    } else {
      assert p.queue != [];
      p' := p.(writing := p.queue[0], queue := p.queue[1..]);
      assert TakeFrame(p, p');
    }
  }

  // ----- progress -----

  /** Bytes under way, weighted by the stages each has still to pass. */
  function PathRank(p: Path): nat {
    6 * |Concat(p.queue)| + 5 * |p.writing| + 4 * |p.uplink| + 3 * |p.copy| + 2 * |p.downlink| + |p.partial|
      + if p.stopped then 0 else 1
  }

  lemma InternalDecreases(p: Path, p': Path, capacity: nat)
    requires PathInv(p) && Internal(p, p', capacity)
    ensures PathRank(p') < PathRank(p)
  {
    if TakeFrame(p, p') {
      assert p.queue[0] in p.queue;
      assert |Concat(p.queue)| == |p.queue[0]| + |Concat(p.queue[1..])|;
    }
  }

  /** A non-empty stream can always move as long as the session's queue has room. */
  lemma PathProgress(p: Path, capacity: nat) returns (p': Path)
    requires PathInv(p) && Stream(p) != [] && |p.inbox| < capacity
    ensures Internal(p, p', capacity)
  {
    HeadFrame(p);
    p' := SomethingMoves(p, capacity);
  }
}
