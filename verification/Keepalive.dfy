/** The sending client's wait for a receiver, `handle_keepalive` in
    `src/relay/client.rs`, and how it fits what the relay sends. */
module Keepalive {
  import opened Bytes
  import opened Framing
  import opened Options
  import opened CrocRaw
  import opened Rooms
  import opened RoomStreams
  import opened RelayTheorems

  const IPS: Bytes := [105, 112, 115, 63]
  const HANDSHAKE: Bytes := [104, 97, 110, 100, 115, 104, 97, 107, 101]

  /** How the wait ends on a given stream: with the handshake, the bytes after
      it and the number of address requests answered; with a message that means
      nothing; or with a stream that stops. */
  datatype Ending = Handshake(rest: Bytes, answers: nat) | Unknown(message: Bytes) | Lost

  datatype Kind = AsksForIps | ShakesHands | Pings | MakesNoSense

  function KindOf(m: Bytes): Kind {
    if m == IPS then AsksForIps
    else if m == HANDSHAKE then ShakesHands
    else if m == PING_MESSAGE then Pings
    else MakesNoSense
  }

  function Wait(s: Bytes): Ending
    decreases |s|
  {
    match ParseOne(s)
    case Message(m, rest) =>
      (match KindOf(m)
       case AsksForIps => (match Wait(rest) case Handshake(after, n) => Handshake(after, n + 1) case other => other)
       case ShakesHands => Handshake(rest, 0)
       case Pings => Wait(rest)
       case MakesNoSense => Unknown(m))
    case _ => Lost
  }

  function Answers(reply: Bytes, n: nat): Bytes {
    if n == 0 then [] else Frame(reply) + Answers(reply, n - 1)
  }

  lemma {:induction false} AnswersOneMore(reply: Bytes, n: nat)
    ensures Answers(reply, n) + Frame(reply) == Answers(reply, n + 1)
  {
    if n > 0 {
      AnswersOneMore(reply, n - 1);
    }
  }

  datatype WaitError = NotUnderstood(message: Bytes) | ReadFailed(error: IoError)

  /** The loop.  `addresses` is the encoded address list. */
  method HandleKeepalive(connection: Connection, addresses: Bytes) returns (r: Result<(), WaitError>)
    requires Sendable(addresses)
    modifies connection
    ensures r.Ok? <==> Wait(old(connection.Pending())).Handshake?
    ensures r.Ok? ==>
              var ending := Wait(old(connection.Pending()));
              connection.Pending() == ending.rest
              && connection.sent == old(connection.sent) + Answers(addresses, ending.answers)
    ensures r.Err? && r.error.NotUnderstood? <==> Wait(old(connection.Pending())).Unknown?
    ensures r.Err? && r.error.NotUnderstood? ==> r.error.message == Wait(old(connection.Pending())).message
  {
    ghost var answered := 0;
    ghost var start := Wait(connection.Pending());
    while true
      invariant connection.sent == old(connection.sent) + Answers(addresses, answered)
      invariant Follows(start, Wait(connection.Pending()), answered)
      decreases |connection.Pending()|
    {
      ghost var s := connection.Pending();
      var data := CrocRaw.Read(connection);
      if data.Err? {
        return Err(ReadFailed(data.error));
      }
      WaitStep(start, s, answered);
      match KindOf(data.value) {
        case AsksForIps =>
          var written := CrocRaw.Write(connection, addresses);
          AnswersOneMore(addresses, answered);
          answered := answered + 1;
        case ShakesHands =>
          return Ok(());
        case Pings =>
        case MakesNoSense =>
          return Err(NotUnderstood(data.value));
      }
    }
  }

  /** `start` is how a wait ends that has answered `n` times and goes on with `now`. */
  ghost predicate Follows(start: Ending, now: Ending, n: nat) {
    start == match now case Handshake(rest, k) => Handshake(rest, n + k) case other => other
  }

  lemma WaitStep(start: Ending, s: Bytes, n: nat)
    requires ParseOne(s).Message? && Follows(start, Wait(s), n)
    ensures var Message(m, rest) := ParseOne(s);
            match KindOf(m)
            case AsksForIps => Follows(start, Wait(rest), n + 1)
            case ShakesHands => start == Handshake(rest, n)
            case Pings => Follows(start, Wait(rest), n)
            case MakesNoSense => start == Unknown(m)
  {
  }

  // ----- what the wait makes of a stream -----

  lemma MessagesSpelled()
    ensures IPS == Ascii("ips?") && HANDSHAKE == Ascii("handshake") && PING_MESSAGE == [1]
  {
    SpelledOut("ips?", IPS);
    SpelledOut("handshake", HANDSHAKE);
  }

  /** Pings and address requests, which the wait goes on after. */
  ghost predicate AreChatter(ms: seq<Bytes>) {
    forall m :: m in ms ==> m == IPS || m == PING_MESSAGE
  }

  function WithAnswers(e: Ending, n: nat): Ending {
    if e.Handshake? then Handshake(e.rest, e.answers + n) else e
  }

  /** Chatter is skipped, and each address request in it is answered once. */
  lemma {:induction false} WaitSkips(ms: seq<Bytes>, tail: Bytes)
    requires AreChatter(ms)
    ensures Wait(FrameAll(ms) + tail) == WithAnswers(Wait(tail), multiset(ms)[IPS])
  {
    if ms == [] {
      assert FrameAll(ms) + tail == tail;
    } else {
      var m, later := ms[0], ms[1..];
      assert m in ms && ms == [m] + later;
      Associates(Frame(m), FrameAll(later), tail);
      ParseFrame(m, FrameAll(later) + tail);
      assert forall x :: x in later ==> x in ms;
      WaitSkips(later, tail);
      CountOneMore(m, later);
    }
  }

  lemma CountOneMore(m: Bytes, later: seq<Bytes>)
    ensures multiset([m] + later)[IPS] == multiset(later)[IPS] + if m == IPS then 1 else 0
  {
  }

  /** Any stream is chatter and then something else. */
  lemma {:induction false} LeadingChatter(s: Bytes) returns (ms: seq<Bytes>, tail: Bytes)
    ensures AreChatter(ms) && s == FrameAll(ms) + tail
    ensures ParseOne(tail).Message? ==> ParseOne(tail).payload != IPS && ParseOne(tail).payload != PING_MESSAGE
    decreases |s|
  {
    ms, tail := [], s;
    if ParseOne(s).Message? {
      ParsedIsFrame(s);
      var Message(m, rest) := ParseOne(s);
      if m == IPS || m == PING_MESSAGE {
        var later;
        later, tail := LeadingChatter(rest);
        ms := [m] + later;
        assert ms[1..] == later;
        Associates(Frame(m), FrameAll(later), tail);
      }
    }
  }

  ghost predicate IsPreamble(s: Bytes, ms: seq<Bytes>, rest: Bytes) {
    AreChatter(ms) && s == FrameAll(ms) + (Frame(HANDSHAKE) + rest)
  }

  /** The wait ends well exactly on pings and address requests followed by the
      handshake; it leaves the stream right behind the handshake and has answered
      each request once. */
  lemma WaitEndsExactlyWhen(s: Bytes, rest: Bytes, n: nat)
    ensures Wait(s) == Handshake(rest, n) <==> exists ms :: IsPreamble(s, ms, rest) && multiset(ms)[IPS] == n
  {
    if Wait(s) == Handshake(rest, n) {
      var ms, tail := LeadingChatter(s);
      WaitSkips(ms, tail);
      ParsedIsFrame(tail);
      assert IsPreamble(s, ms, rest);
    }
    if ms :| IsPreamble(s, ms, rest) && multiset(ms)[IPS] == n {
      WaitSkips(ms, Frame(HANDSHAKE) + rest);
      ParseFrame(HANDSHAKE, rest);
    }
  }

  /** A message that the client does not know, after chatter. */
  ghost predicate IsNonsense(s: Bytes, ms: seq<Bytes>, m: Bytes, rest: Bytes) {
    && AreChatter(ms) && s == FrameAll(ms) + (Frame(m) + rest)
    && Sendable(m) && m != IPS && m != PING_MESSAGE && m != HANDSHAKE
  }

  /** It ends with an error exactly at the first message that is none of the three. */
  lemma WaitFailsExactlyWhen(s: Bytes, m: Bytes)
    ensures Wait(s) == Unknown(m) <==> exists ms, rest :: IsNonsense(s, ms, m, rest)
  {
    if Wait(s) == Unknown(m) {
      var ms, tail := LeadingChatter(s);
      WaitSkips(ms, tail);
      ParsedIsFrame(tail);
      assert IsNonsense(s, ms, m, ParseOne(tail).rest);
    }
    if ms, rest :| IsNonsense(s, ms, m, rest) {
      WaitSkips(ms, Frame(m) + rest);
      ParseFrame(m, rest);
    }
  }

  /** In every run of the relay: once the creator of a room is bridged, and its
      peer has opened with the handshake (as `connect_to_sender` does) and the
      relay has passed that on, the creator's wait ends, and what it reads next is
      exactly what its peer sent next. */
  lemma WaitMeetsRelay(names: seq<string>, s: Relay, x: nat)
    requires Rooms.Reachable(names, s) && x < |s.peers| && s.peers[x].feed.Some? && !s.peers[x].broken
    requires s.peers[x].feed.value.from < |s.peers|
    requires Frame(HANDSHAKE) <= Written(s.peers[s.peers[x].feed.value.from].input, s.peers[x].feed.value)
    ensures var written := Written(s.peers[s.peers[x].feed.value.from].input, s.peers[x].feed.value);
            Wait(s.peers[x].output) == Handshake(written[|Frame(HANDSHAKE)|..], 0)
  {
    OutputIsPingsThenPeer(names, s, x);
    var written := Written(s.peers[s.peers[x].feed.value.from].input, s.peers[x].feed.value);
    var rest := written[|Frame(HANDSHAKE)|..];
    assert written == Frame(HANDSHAKE) + rest;
    var k: nat :| s.peers[x].output == Repeated(PING, k) + written;
    PingsAreFrames(k);
    WaitSkips(PingMessages(k), written);
    ParseFrame(HANDSHAKE, rest);
    NoIps(PingMessages(k));
  }

  function PingMessages(k: nat): (ms: seq<Bytes>)
    ensures forall m :: m in ms ==> m == PING_MESSAGE
  {
    if k == 0 then [] else PingMessages(k - 1) + [PING_MESSAGE]
  }

  lemma {:induction false} PingsAreFrames(k: nat)
    ensures Repeated(PING, k) == FrameAll(PingMessages(k))
  {
    if k > 0 {
      PingsAreFrames(k - 1);
      FrameAllOne(PingMessages(k - 1), PING_MESSAGE);
    }
  }

  lemma NoIps(ms: seq<Bytes>)
    requires forall m :: m in ms ==> m == PING_MESSAGE
    ensures AreChatter(ms) && multiset(ms)[IPS] == 0
  {
    assert |PING_MESSAGE| != |IPS|;
    assert IPS !in ms;
  }
}
