/** Transfers that are never agreed: the secret cannot be cut as text, the sender
    has no files, or the receiving user says no.  What either client does then, and
    that no file is touched. */
module Refusals {
  import opened Cryptography
  import opened EndToEnd
  import opened Options
  import opened Pipeline
  import opened Protocol
  import opened Safety
  import opened Transfer
  import opened TransferSteps
  import opened Utf8

  datatype Stage =
    | Uncut | Opening | KeySent | KeyAnswered | IpSent | NoFiles | NoFilesKnown | InfoSent | InfoNext | Refused | Told

  function PanickedSender(cfg: Config): Client
    requires |cfg.secret| >= SECRET_PREFIX
  {
    KeyedSender(cfg).(peerIp := Some(cfg.receiverIp), state := FileInfoTransfer, pc := Panicked)
  }

  function MetReceiver(cfg: Config): Client
    requires |cfg.secret| >= SECRET_PREFIX
  {
    KeyedReceiver(cfg).(peerIp := Some(cfg.senderIp), state := FileInfoTransfer)
  }

  function DenyingReceiver(cfg: Config): Client
    requires |cfg.secret| >= SECRET_PREFIX
  {
    MetReceiver(cfg).(toReceive := cfg.files, pc := Failed(TransferDenied))
  }

  /** Which client is where, and what exactly is on the control connection. */
  ghost predicate At(cfg: Config, s: System, stage: Stage)
    requires CanCut(cfg.secret)
  {
    var word := Word(cfg.secret);
    var opening := Pake(cfg.crypto.pub(PakeSender, word, cfg.receiverPrivate), SIEC);
    var answer := Pake(cfg.crypto.pub(PakeReceiver, word, cfg.senderPrivate), cfg.salt);
    var unkeyed := s.sender == NewClient(cfg, true) || s.sender == NewClient(cfg, true).(pc := Waiting);
    var keyed := NewClient(cfg, false).(key := Some(PakeKey(PakeSender, None)), pc := Waiting);
    match stage
    case Uncut => false
    case Opening => unkeyed && s.receiver == NewClient(cfg, false) && s.toSender == [] && s.toReceiver == []
    case KeySent => unkeyed && s.receiver == keyed && s.toSender == [opening] && s.toReceiver == []
    case KeyAnswered =>
      s.sender == KeyedSender(cfg) && s.receiver == keyed && s.toSender == [] && s.toReceiver == [answer]
    case IpSent =>
      s.sender == KeyedSender(cfg) && s.receiver == KeyedReceiver(cfg)
      && s.toSender == [ExternalIP(cfg.receiverIp)] && s.toReceiver == []
    case NoFiles =>
      cfg.files.None? && s.sender == PanickedSender(cfg) && s.receiver == KeyedReceiver(cfg)
      && s.toSender == [] && s.toReceiver == [ExternalIP(cfg.senderIp)]
    case NoFilesKnown =>
      cfg.files.None? && s.sender == PanickedSender(cfg) && s.receiver == MetReceiver(cfg)
      && s.toSender == [] && s.toReceiver == []
    case InfoSent =>
      cfg.files.Some? && s.sender == ServingSender(cfg, Waiting) && s.receiver == KeyedReceiver(cfg)
      && s.toSender == [] && s.toReceiver == [ExternalIP(cfg.senderIp), FilesInfo(cfg.files.value)]
    case InfoNext =>
      cfg.files.Some? && s.sender == ServingSender(cfg, Waiting) && s.receiver == MetReceiver(cfg)
      && s.toSender == [] && s.toReceiver == [FilesInfo(cfg.files.value)]
    case Refused =>
      cfg.files.Some? && s.sender == ServingSender(cfg, Waiting) && s.receiver == DenyingReceiver(cfg)
      && s.toSender == [TypeError] && s.toReceiver == []
    case Told =>
      cfg.files.Some? && s.sender == ServingSender(cfg, Panicked) && s.receiver == DenyingReceiver(cfg)
      && s.toSender == [] && s.toReceiver == []
  }

  /** A secret that cannot be cut: nobody gets as far as sending anything. */
  ghost predicate Cutting(cfg: Config, s: System) {
    var short := |cfg.secret| < SECRET_PREFIX;
    && (s.sender == NewClient(cfg, true)
        || s.sender == NewClient(cfg, true).(pc := if short then Panicked else Waiting))
    && (s.receiver == NewClient(cfg, false) || s.receiver == NewClient(cfg, false).(pc := Panicked))
    && s.toSender == [] && s.toReceiver == []
  }

  ghost predicate StageInv(cfg: Config, s: System, stage: Stage) {
    && s.data == NO_DATA
    && if CanCut(cfg.secret) then At(cfg, s, stage) else Cutting(cfg, s)
  }

  /** Without files or a user who agrees. */
  predicate Unagreed(cfg: Config) {
    !CanCut(cfg.secret) || cfg.files.None? || !cfg.confirmed
  }

  function StageRank(stage: Stage): nat {
    match stage
    case Opening => 8
    case KeySent => 7
    case KeyAnswered => 6
    case IpSent => 5
    case InfoSent => 4
    case NoFiles => 4
    case InfoNext => 3
    case NoFilesKnown => 3
    case Refused => 2
    case Told => 1
    case Uncut => 0
  }

  function Started(c: Client): nat {
    if c.pc == Start then 1 else 0
  }

  function RankAt(cfg: Config, s: System, stage: Stage): nat {
    (if CanCut(cfg.secret) then 2 * StageRank(stage) else 0) + Started(s.sender) + Started(s.receiver)
  }

  // ----- every step -----

  lemma OutOfLoops(cfg: Config, s: System, stage: Stage, e: Event, s': System)
    requires StageInv(cfg, s, stage) && !IsControlEvent(e) && !IsTaskEvent(e)
    ensures !Step(cfg, s, e, s')
  {
  }

  lemma CuttingKeeps(cfg: Config, s: System, e: Event, s': System)
    requires !CanCut(cfg.secret) && Cutting(cfg, s) && IsControlEvent(e) && Step(cfg, s, e, s')
    ensures Cutting(cfg, s') && s'.data == s.data
  {
  }

  lemma BeginKeeps(cfg: Config, s: System, stage: Stage, e: Event, s': System) returns (stage': Stage)
    requires CanCut(cfg.secret) && At(cfg, s, stage) && (e.BeginSender? || e.BeginReceiver?) && Step(cfg, s, e, s')
    ensures At(cfg, s', stage') && s'.data == s.data && RankAt(cfg, s', stage') < RankAt(cfg, s, stage)
  {
    stage' := if e.BeginSender? then stage else Stage.KeySent;
  }

  lemma SenderKeeps(cfg: Config, s: System, stage: Stage, s': System) returns (stage': Stage)
    requires CanCut(cfg.secret) && KeysAgree(cfg) && Unagreed(cfg) && At(cfg, s, stage)
    requires Step(cfg, s, SenderHandles, s')
    ensures At(cfg, s', stage') && s'.data == s.data && StageRank(stage') < StageRank(stage)
    ensures Started(s'.sender) == Started(s.sender) && s'.receiver == s.receiver
  {
    match stage
    case KeySent => stage' := Stage.KeyAnswered;
    case IpSent => stage' := if cfg.files.Some? then Stage.InfoSent else NoFiles;
    case Refused => stage' := Told;
  }

  lemma ReceiverKeeps(cfg: Config, s: System, stage: Stage, s': System) returns (stage': Stage)
    requires CanCut(cfg.secret) && KeysAgree(cfg) && Unagreed(cfg) && At(cfg, s, stage)
    requires Step(cfg, s, ReceiverHandles, s')
    ensures At(cfg, s', stage') && s'.data == s.data && StageRank(stage') < StageRank(stage)
    ensures s'.sender == s.sender && Started(s'.receiver) == Started(s.receiver)
  {
    match stage
    case KeyAnswered => stage' := Stage.IpSent;
    case NoFiles => stage' := NoFilesKnown;
    case InfoSent => stage' := Stage.InfoNext;
    case InfoNext => stage' := Refused;
  }

  lemma StageStep(cfg: Config, s: System, stage: Stage, e: Event, s': System) returns (stage': Stage)
    requires Honest(cfg) && Unagreed(cfg) && StageInv(cfg, s, stage) && Step(cfg, s, e, s')
    ensures StageInv(cfg, s', stage') && RankAt(cfg, s', stage') < RankAt(cfg, s, stage)
  {
    stage' := stage;
    if !IsControlEvent(e) {
      NotControl(cfg, s, stage, e, s');
    } else if !CanCut(cfg.secret) {
      CuttingKeeps(cfg, s, e, s');
    } else {
      HonestKeys(cfg);
      stage' := ControlKeeps(cfg, s, stage, e, s');
    }
  }

  lemma NotControl(cfg: Config, s: System, stage: Stage, e: Event, s': System)
    requires StageInv(cfg, s, stage) && !IsControlEvent(e)
    ensures !Step(cfg, s, e, s')
  {
    if IsTaskEvent(e) {
      IdleTasksRest(cfg, s, e, s');
    } else {
      OutOfLoops(cfg, s, stage, e, s');
    }
  }

  lemma ControlKeeps(cfg: Config, s: System, stage: Stage, e: Event, s': System) returns (stage': Stage)
    requires CanCut(cfg.secret) && KeysAgree(cfg) && Unagreed(cfg) && At(cfg, s, stage)
    requires IsControlEvent(e) && Step(cfg, s, e, s')
    ensures At(cfg, s', stage') && s'.data == s.data && RankAt(cfg, s', stage') < RankAt(cfg, s, stage)
  {
    if e.SenderHandles? {
      stage' := SenderKeeps(cfg, s, stage, s');
    } else if e.ReceiverHandles? {
      stage' := ReceiverKeeps(cfg, s, stage, s');
    } else {
      stage' := BeginKeeps(cfg, s, stage, e, s');
    }
  }

  lemma {:induction false} StageRun(cfg: Config, run: seq<System>) returns (stage: Stage)
    requires Honest(cfg) && Unagreed(cfg) && IsRun(cfg, run)
    ensures StageInv(cfg, run[|run| - 1], stage)
    decreases |run|
  {
    var n := |run|;
    if n == 1 {
      stage := Stage.Opening;
      StartsSo(cfg);
    } else {
      EndToEnd.ShorterRun(cfg, run);
      stage := StageRun(cfg, run[..n - 1]);
      var e :| Step(cfg, run[n - 2], e, run[n - 1]);
      stage := StageStep(cfg, run[n - 2], stage, e, run[n - 1]);
    }
  }

  lemma StartsSo(cfg: Config)
    ensures StageInv(cfg, Init(cfg), Stage.Opening)
  {
  }

  lemma StageOf(cfg: Config, s: System) returns (stage: Stage)
    requires Honest(cfg) && Unagreed(cfg) && Reachable(cfg, s)
    ensures StageInv(cfg, s, stage)
  {
    var run: seq<System> :| IsRun(cfg, run) && run[|run| - 1] == s;
    stage := StageRun(cfg, run);
  }

  // ----- what a refusal costs -----

  /** When the user refuses, and also when the sender has nothing to offer or the
      secret cannot be cut, no file is touched, nothing is put on the data connection
      and no file is ever asked for. */
  lemma NothingIsTouched(cfg: Config, s: System)
    requires Honest(cfg) && Unagreed(cfg) && Reachable(cfg, s)
    ensures s.data == NO_DATA
    ensures forall m :: m in s.toSender ==> !m.RecipientReady?
    ensures s.sender.pc != Returned && s.receiver.pc != Returned
  {
    var stage := StageOf(cfg, s);
  }

  /** A receiver that has said so has stopped, and will have until the end. */
  lemma RefusalIsFinal(cfg: Config, s: System)
    requires Honest(cfg) && Reachable(cfg, s) && TypeError in s.toSender
    ensures !cfg.confirmed && s.receiver.pc == Failed(TransferDenied) && s.toSender == [TypeError]
  {
    if Agreeable(cfg) {
      NoErrorsSent(cfg, s);
    } else {
      var stage := StageOf(cfg, s);
    }
  }

  lemma NoErrorsSent(cfg: Config, s: System)
    requires Honest(cfg) && Agreeable(cfg) && Reachable(cfg, s)
    ensures TypeError !in s.toSender
  {
    ReachableInv(cfg, s);
    var phase :| InvAt(cfg, s, phase);
    ControlSendsNoErrors(cfg, s, phase);
  }

  lemma ControlSendsNoErrors(cfg: Config, s: System, phase: Phase)
    requires Agreeable(cfg) && Control(cfg, s, phase)
    ensures TypeError !in s.toSender
  {
    if phase.Closing? {
      var last := |s.toSender| - 1;
      assert s.toSender == s.toSender[..last] + [Finished];
    } else if phase.Transferring? && s.toSender != [] {
      var last := |s.toSender| - 1;
      assert s.toSender == s.toSender[..last] + [s.toSender[last]];
    }
  }

  // ----- how it ends -----

  /** Where a transfer ends that is not agreed. */
  ghost predicate GivenUp(cfg: Config, s: System) {
    if !CanCut(cfg.secret) then
      && s.receiver.pc == Panicked
      && s.sender.pc == if |cfg.secret| < SECRET_PREFIX then Panicked else Waiting
    else if cfg.files.None? then s.sender.pc == Panicked && s.receiver.pc == Waiting
    else s.sender.pc == Panicked && s.receiver.pc == Failed(TransferDenied)
  }

  lemma GoesOnUntilGivenUp(cfg: Config, s: System, stage: Stage) returns (e: Event, s': System)
    requires Unagreed(cfg) && StageInv(cfg, s, stage) && !GivenUp(cfg, s)
    ensures Step(cfg, s, e, s')
  {
    if s.receiver.pc == Start {
      var o := Begin(s.receiver, cfg.crypto);
      e, s' := BeginReceiver, s.(receiver := o.client, toSender := s.toSender + o.sent);
    } else if s.sender.pc == Start {
      var o := Begin(s.sender, cfg.crypto);
      e, s' := BeginSender, s.(sender := o.client, toReceiver := s.toReceiver + o.sent);
    } else if s.toSender != [] {
      e, s' := SenderHandles, AfterSender(cfg, s);
    } else {
      e, s' := ReceiverHandles, AfterReceiver(cfg, s);
    }
  }

  lemma {:induction false} GivesUp(cfg: Config, run: nat -> System, i: nat, stage: Stage) returns (n: nat)
    requires Honest(cfg) && Unagreed(cfg) && IsFullRun(cfg, run) && StageInv(cfg, run(i), stage)
    ensures GivenUp(cfg, run(n))
    decreases RankAt(cfg, run(i), stage)
  {
    if GivenUp(cfg, run(i)) {
      n := i;
    } else {
      var e, s' := GoesOnUntilGivenUp(cfg, run(i), stage);
      assert Next(cfg, run(i), s');
      assert GoesOn(cfg, run, i);
      var e' :| Step(cfg, run(i), e', run(i + 1));
      var stage' := StageStep(cfg, run(i), stage, e', run(i + 1));
      n := GivesUp(cfg, run, i + 1, stage');
    }
  }

  /** Every run of a transfer that is not agreed ends, and how: a refusal leaves the
      receiver with an error and the sender panicked; without files the sender panics
      and the receiver waits for ever; with a secret that cannot be cut the receiver
      panics, and the sender too if it is shorter than five bytes. */
  lemma UnagreedEnds(cfg: Config, run: nat -> System) returns (n: nat)
    requires Honest(cfg) && Unagreed(cfg) && IsFullRun(cfg, run)
    ensures GivenUp(cfg, run(n)) && run(n).data == NO_DATA
  {
    StartsSo(cfg);
    n := GivesUp(cfg, run, 0, Stage.Opening);
    var prefix := FullRunReachable(cfg, run, n);
    NothingIsTouched(cfg, run(n));
  }

  // ----- which end panics -----

  /** The sender can panic exactly when the secret is shorter than five bytes, or can
      be cut and then there are no files or the user refuses. */
  lemma SenderPanicsExactlyWhen(cfg: Config, text: Text)
    requires Honest(cfg) && cfg.secret == Encode(text)
    ensures (exists s :: Reachable(cfg, s) && s.sender.pc.Panicked?)
            <==> |Encode(text)| < 5 || (IsBoundary(text, 5) && (cfg.files.None? || !cfg.confirmed))
  {
    CutsExactlyWhen(text);
    if |Encode(text)| < 5 {
      var s0 := Init(cfg);
      var s1 := s0.(sender := Begin(s0.sender, cfg.crypto).client);
      ExtendRun(cfg, [s0], BeginSender, s1);
      var run := [s0] + [s1];
      assert Reachable(cfg, run[|run| - 1]);
    } else if CanCut(cfg.secret) && !Agreeable(cfg) {
      HonestKeys(cfg);
      var run := PanicRun(cfg);
      assert Reachable(cfg, run[|run| - 1]);
    } else {
      forall s | Reachable(cfg, s)
        ensures !s.sender.pc.Panicked?
      {
        SenderLives(cfg, s);
      }
    }
  }

  lemma SenderLives(cfg: Config, s: System)
    requires Honest(cfg) && Reachable(cfg, s) && |cfg.secret| >= 5 && (CanCut(cfg.secret) ==> Agreeable(cfg))
    ensures !s.sender.pc.Panicked?
  {
    if Agreeable(cfg) {
      NoPanicNoFailure(cfg, s);
    } else {
      var stage := StageOf(cfg, s);
    }
  }

  /** The receiver can panic exactly when the secret cannot be cut. */
  lemma ReceiverPanicsExactlyWhen(cfg: Config, text: Text)
    requires Honest(cfg) && cfg.secret == Encode(text)
    ensures (exists s :: Reachable(cfg, s) && s.receiver.pc.Panicked?) <==> !IsBoundary(text, 5)
  {
    CutsExactlyWhen(text);
    if !CanCut(cfg.secret) {
      var run := PanicRun(cfg);
      assert Reachable(cfg, run[|run| - 1]);
    } else {
      forall s | Reachable(cfg, s)
        ensures !s.receiver.pc.Panicked?
      {
        ReceiverLives(cfg, s);
      }
    }
  }

  lemma ReceiverLives(cfg: Config, s: System)
    requires Honest(cfg) && Reachable(cfg, s) && CanCut(cfg.secret)
    ensures !s.receiver.pc.Panicked?
  {
    if Agreeable(cfg) {
      NoPanicNoFailure(cfg, s);
    } else {
      var stage := StageOf(cfg, s);
    }
  }
}
