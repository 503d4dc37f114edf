/** What a client makes of a peer that sends whatever it likes: which messages stop
    it, where a session comes from, and that files wait for keys, addresses and
    consent in that order. */
module Peers {
  import opened Bytes
  import opened Cryptography
  import opened Options
  import opened Protocol

  /** What holds of a client between two messages, whatever it was sent. */
  ghost predicate Sound(c: Client, world: Surroundings) {
    && (c.session.Some? <==> c.tasksStarted)
    && (c.session.None? <==> c.state == KeyExchange)
    && (c.session.Some? ==> c.key.Some? && c.key.value.k == Some(c.session.value.key))
    && (c.session.Some? ==> CanCut(c.secret))
    && (c.state != KeyExchange && c.state != IpExchange ==> c.peerIp.Some?)
    && if c.isSender then SoundSender(c) else SoundReceiver(c, world)
  }

  ghost predicate SoundSender(c: Client) {
    && (c.state == KeyExchange || c.state == IpExchange || (c.state == FileTransfer && c.files.Some?))
    && (c.session.Some? ==> c.session.value.salt == c.freshSalt)
  }

  ghost predicate SoundReceiver(c: Client, world: Surroundings) {
    && c.key.Some? && CanCut(c.secret)
    && (c.session.Some? ==> |c.session.value.salt| == 8)
    && (c.state == FileTransfer || c.state == FileTransferred ==>
          world.confirmed && world.foldersMade && c.toReceive.Some?
          && (c.state == FileTransfer <==> c.toReceive.value.toTransfer.Some?))
  }

  predicate IsLive(c: Client) {
    !c.pc.Start? && !c.pc.Returned? && !c.pc.Failed? && !c.pc.Panicked?
  }

  /** A client's part of any run: it begins, takes any message, or moves on in a loop. */
  ghost predicate Moves(c: Client, c': Client, crypto: Crypto, world: Surroundings) {
    || (c.pc == Start && c' == Begin(c, crypto).client)
    || (c.pc == Waiting && |c.secret| >= SECRET_PREFIX && exists m :: Takes(c, m, c', crypto, world))
    || (InLoop(c) && c' == c.(pc := c'.pc) && (InLoop(c') || c'.pc.Waiting? || c'.pc.Failed? || c'.pc.Panicked?))
  }

  ghost predicate Takes(c: Client, m: Message, c': Client, crypto: Crypto, world: Surroundings)
    requires |c.secret| >= SECRET_PREFIX
  {
    c' == HandleMessage(c, crypto, m, world).client
  }

  predicate InLoop(c: Client) {
    c.pc.Sending? || c.pc.Requesting? || c.pc.Sizing? || c.pc.Receiving? || c.pc.Forwarding?
  }

  predicate IsNew(c: Client) {
    c.pc == Start && c.state == KeyExchange && c.key.None? && c.session.None? && c.peerIp.None? && c.toReceive.None?
    && !c.tasksStarted
  }

  ghost predicate IsLife(run: seq<Client>, crypto: Crypto, world: Surroundings) {
    && |run| > 0 && IsNew(run[0])
    && forall i, j :: 0 <= i < |run| && j == i + 1 < |run| ==> Moves(run[i], run[j], crypto, world)
  }

  lemma KeysStaySound(c: Client, m: Message, crypto: Crypto, world: Surroundings)
    requires c.pc == Waiting && |c.secret| >= SECRET_PREFIX && Sound(c, world) && m.Pake?
    ensures var c' := HandleMessage(c, crypto, m, world).client; c'.pc != Start && (IsLive(c') ==> Sound(c', world))
  {
  }

  lemma AddressStaysSound(c: Client, m: Message, crypto: Crypto, world: Surroundings)
    requires c.pc == Waiting && |c.secret| >= SECRET_PREFIX && Sound(c, world) && m.ExternalIP?
    ensures var c' := HandleMessage(c, crypto, m, world).client; c'.pc != Start && (IsLive(c') ==> Sound(c', world))
  {
  }

  lemma ListStaysSound(c: Client, m: Message, crypto: Crypto, world: Surroundings)
    requires c.pc == Waiting && |c.secret| >= SECRET_PREFIX && Sound(c, world) && m.FilesInfo?
    ensures var c' := HandleMessage(c, crypto, m, world).client; c'.pc != Start && (IsLive(c') ==> Sound(c', world))
  {
  }

  lemma RestStaysSound(c: Client, m: Message, crypto: Crypto, world: Surroundings)
    requires c.pc == Waiting && |c.secret| >= SECRET_PREFIX && Sound(c, world)
    requires m.RecipientReady? || m.TypeError? || m.Finished?
    ensures var c' := HandleMessage(c, crypto, m, world).client; c'.pc != Start && (IsLive(c') ==> Sound(c', world))
  {
  }

  lemma MovesStaySound(c: Client, c': Client, crypto: Crypto, world: Surroundings)
    requires Moves(c, c', crypto, world) && (IsNew(c) || (IsLive(c) && Sound(c, world)))
    ensures c'.pc != Start && (IsLive(c') ==> Sound(c', world))
  {
    if c.pc == Waiting {
      var m :| Takes(c, m, c', crypto, world);
      match m
      case Pake(_, _) => KeysStaySound(c, m, crypto, world);
      case ExternalIP(_) => AddressStaysSound(c, m, crypto, world);
      case FilesInfo(_) => ListStaysSound(c, m, crypto, world);
      case _ => RestStaysSound(c, m, crypto, world);
    }
  }

  /** Whatever its peer sends, a client that is still at work holds a session exactly
      when it has exchanged keys, has its peer's address before it comes to files, and
      is among files only when it is meant to be. */
  lemma {:induction false} AnyPeer(run: seq<Client>, crypto: Crypto, world: Surroundings)
    requires IsLife(run, crypto, world)
    ensures IsLive(run[|run| - 1]) ==> Sound(run[|run| - 1], world)
    ensures run[|run| - 1].pc == Start ==> |run| == 1
    decreases |run|
  {
    var n := |run|;
    if n > 1 {
      ShorterLife(run, crypto, world);
      AnyPeer(run[..n - 1], crypto, world);
      MovesStaySound(run[n - 2], run[n - 1], crypto, world);
    }
  }

  lemma ShorterLife(run: seq<Client>, crypto: Crypto, world: Surroundings)
    requires IsLife(run, crypto, world) && |run| > 1
    ensures IsLife(run[..|run| - 1], crypto, world) && Moves(run[|run| - 2], run[|run| - 1], crypto, world)
  {
    assert forall i, j :: 0 <= i < |run| - 1 && j == i + 1 < |run| - 1 ==> Moves(run[i], run[j], crypto, world);
  }

  // ----- sessions -----

  /** A key exchange that a client accepts: its peer's offer, the key agreed on and the
      salt that goes with it. */
  ghost predicate Accepts(c: Client, m: Message, crypto: Crypto, k: nat, salt: Bytes)
    requires |c.secret| >= SECRET_PREFIX
  {
    m.Pake? &&
    if c.isSender then
      && m.bytes2 == Ascii("siec") && CanCut(c.secret) && salt == c.freshSalt
      && crypto.agree(PakeReceiver, c.secret[5..], c.private, m.pub) == Agreed(k)
    else
      && c.key.Some? && |m.bytes2| == 8 && salt == m.bytes2
      && crypto.agree(PakeSender, c.secret[5..], c.private, m.pub) == Agreed(k)
  }

  lemma CurveSpelled()
    ensures SIEC == Ascii("siec")
  {
    SpelledOut("siec", SIEC);
  }

  /** A client makes a session of exactly the exchanges it accepts: from the key both
      sides can compute, with the sender's salt; the sender answers with its own offer
      and that salt, the receiver with its address. */
  lemma SessionsComeFromKeys(c: Client, m: Message, crypto: Crypto, world: Surroundings, k: nat, salt: Bytes)
    requires |c.secret| >= SECRET_PREFIX && c.pc == Waiting
    ensures var o := HandleMessage(c, crypto, m, world);
            && (Accepts(c, m, crypto, k, salt) ==>
                  && o.client == c.(session := Some(Session(k, salt)), state := IpExchange, tasksStarted := true,
                                    key := Some(PakeKey(if c.isSender then PakeReceiver else PakeSender, Some(k))))
                  && o.sent == if c.isSender then [Pake(crypto.pub(PakeReceiver, c.secret[5..], c.private), salt)]
                               else [ExternalIP(c.externalIp)])
            && (o.client.session != c.session && o.client.session == Some(Session(k, salt)) ==>
                  Accepts(c, m, crypto, k, salt))
  {
    CurveSpelled();
  }

  /** What both sides compute from the word, when the client takes this exchange. */
  function AgreementOn(c: Client, m: Message, crypto: Crypto): Agreement
    requires |c.secret| >= SECRET_PREFIX && m.Pake?
  {
    crypto.agree(if c.isSender then PakeReceiver else PakeSender, c.secret[5..], c.private, m.pub)
  }

  /** A key exchange that is not accepted stops the client.  It panics when the secret
      cannot be cut or the exchange leaves no key; otherwise the error says what was
      wrong: the curve, the key, the salt, or that the client never opened. */
  lemma BadExchangesStop(c: Client, m: Message, crypto: Crypto, world: Surroundings)
    requires |c.secret| >= SECRET_PREFIX && c.pc == Waiting && m.Pake?
    requires forall k, salt :: !Accepts(c, m, crypto, k, salt)
    ensures var o := HandleMessage(c, crypto, m, world);
            && o.client.session == c.session && o.client.state == c.state
            && o.client.pc == if c.isSender then
                                if m.bytes2 != Ascii("siec") then Failed(CurveNotSupported)
                                else if !CanCut(c.secret) || AgreementOn(c, m, crypto).Keyless? then Panicked
                                else Failed(BadKey)
                              else if c.key.None? then Failed(CurveNotInitialized)
                              else if AgreementOn(c, m, crypto).Rejected? then Failed(BadKey)
                              else if |m.bytes2| != 8 then Failed(BadSalt)
                              else Panicked
  {
    CurveSpelled();
    var agreement := AgreementOn(c, m, crypto);
    if agreement.Agreed? {
      assert !Accepts(c, m, crypto, agreement.key, if c.isSender then c.freshSalt else m.bytes2);
    }
  }

  // ----- other messages -----

  /** An address is taken only when keys are exchanged and it is the next thing to
      come; the sender answers with its own and with its files. */
  lemma AddressesExactlyWhen(c: Client, ip: string, crypto: Crypto, world: Surroundings)
    requires |c.secret| >= SECRET_PREFIX && c.pc == Waiting && Sound(c, world)
    ensures var o := HandleMessage(c, crypto, ExternalIP(ip), world);
            if c.state != IpExchange then o == Outcome(c.(pc := Failed(InvalidState)), [])
            else
              && o.client.peerIp == Some(ip) && o.client.session == c.session
              && (o.client.pc == Waiting <==> !c.isSender || c.files.Some?)
              && (o.client.pc == Panicked <==> c.isSender && c.files.None?)
              && (!c.isSender ==> o.sent == [] && o.client.state == FileInfoTransfer)
              && (c.isSender && c.files.Some? ==>
                    o.sent == [ExternalIP(c.externalIp), FilesInfo(c.files.value)] && o.client.state == FileTransfer)
  {
  }

  /** A file list is taken only by a receiver that waits for one; what comes of it
      depends on the user, the folders and the list. */
  lemma ListsExactlyWhen(c: Client, info: FilesInformation, crypto: Crypto, world: Surroundings)
    requires |c.secret| >= SECRET_PREFIX && c.pc == Waiting && Sound(c, world)
    ensures var o := HandleMessage(c, crypto, FilesInfo(info), world);
            && (o.client.pc == Panicked <==> c.isSender)
            && (o.client.pc == Failed(InvalidState) <==> !c.isSender && c.state != FileInfoTransfer)
            && (!c.isSender && c.state == FileInfoTransfer ==>
                  && o.client.toReceive == Some(info)
                  && (o.client.pc == Failed(TransferDenied) <==> !world.confirmed)
                  && (TypeError in o.sent <==> !world.confirmed)
                  && (o.client.pc == Failed(FoldersNotMade) <==> world.confirmed && !world.foldersMade)
                  && (world.confirmed && world.foldersMade ==>
                        if info.toTransfer.Some? then o.client.pc == Requesting(0) && o.sent == []
                        else o.client.pc == Waiting && o.sent == [Finished])
                  && (!world.confirmed ==> o.sent == [TypeError])
                  && (world.confirmed && !world.foldersMade ==> o.sent == []))
  {
  }

  /** A file is served only by a sender that has announced it; any other request, and
      any error message, panics. */
  lemma RequestsExactlyWhen(c: Client, index: int, crypto: Crypto, world: Surroundings)
    requires |c.secret| >= SECRET_PREFIX && c.pc == Waiting && Sound(c, world)
    ensures var o := HandleMessage(c, crypto, RecipientReady(index), world);
            var serves := c.isSender && c.state == FileTransfer
                          && (c.files.value.toTransfer.None? || 0 <= index < |c.files.value.toTransfer.value|);
            && o.sent == []
            && (o.client.pc == Panicked <==> !serves)
            && (o.client.pc.Sending? ==> o.client.pc.index == index && o.client.pc.next == 0)
            && (o.client.pc.Sending? <==>
                  serves && c.files.value.toTransfer.Some? && 0 <= index < |world.lengths| && world.lengths[index] > 0)
            && (serves ==> o.client == c.(pc := o.client.pc) && (o.client.pc.Sending? || o.client.pc.Waiting?))
    ensures HandleMessage(c, crypto, TypeError, world) == Outcome(c.(pc := Panicked), [])
    ensures HandleMessage(c, crypto, Finished, world) == Outcome(c.(pc := Returned), [Finished])
  {
  }
}
