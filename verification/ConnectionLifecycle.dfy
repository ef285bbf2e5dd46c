/**
 Connect, reconnect, retry, disconnect and audio operations as interleaving tasks over one gate, one cancellation
 version, one "intentional disconnect" flag, one audio cleanup task and one engine close task. Every await point is a
 step boundary, and every task can be dropped at any of them.
 */
module ConnectionLifecycle {
  import opened Common

  datatype Kind = Connect | Reconnect | Retry | Disconnect | PlayAudio | StopAudio

  predicate IsAudio(k: Kind) { k.PlayAudio? || k.StopAudio? }

  /** A detached task with a stored handle: cancelling a waiter cancels neither the task nor the handle. */
  datatype Task = NoTask | InFlight | Finished

  datatype Phase =
    | New
    | Requested            // a disconnect has bumped the version
    | Queued               // subscribed to the version, waiting for the gate
    | Held                 // holds the gate
    | Ready                // about to make the start check of `run`
    | RunAudio | RunBegin | RunClose | RunEngine | RunValidate
    | FailAudio | FailRoll | FailClose
    | AudioStop | AudioPlay | AudioCleanup
    | Finishing
    | DropAudio | DropClose | DropAudioOnly
    | Done

  predicate Running(p: Phase) { p.RunAudio? || p.RunBegin? || p.RunClose? || p.RunEngine? || p.RunValidate? }
  predicate Failing(p: Phase) { p.FailAudio? || p.FailRoll? || p.FailClose? }
  predicate Playing(p: Phase) { p.AudioStop? || p.AudioPlay? || p.AudioCleanup? }
  predicate Dropping(p: Phase) { p.DropAudio? || p.DropClose? || p.DropAudioOnly? }

  predicate HoldsGate(p: Phase) {
    p.Held? || p.Ready? || Running(p) || Failing(p) || Playing(p) || p.Finishing? || Dropping(p)
  }

  /**
   An operation. `session` tells the validated-session form from the plain transport form. `seen` is the version it
   subscribed at. History: the log positions of its request and its subscription, and whether it returned normally.
   */
  datatype Op = Op(kind: Kind, session: bool, phase: Phase, seen: nat,
                   requestedAt: Option<nat>, subscribedAt: Option<nat>, returned: bool)

  datatype Event =
    | DidRequest(op: nat)
    | DidSubscribe(op: nat)
    | DidStart(op: nat, kind: Kind)

  /** `connectedBy`: the operation that last set the connected flag. */
  datatype State = State(
    version: nat,
    intentional: bool,
    connected: bool,
    connectedBy: nat,
    gate: Option<nat>,
    ops: map<nat, Op>,
    sender: bool,
    cleanup: Task,
    close: Task,
    log: seq<Event>)

  const INITIAL := State(0, false, false, 0, None, map[], false, NoTask, NoTask, [])

  datatype Act =
    | Request
    | Subscribe
    | Acquire
    | Proceed
    | CheckRun
    | AudioStart
    | AudioDone
    | Begin
    | CloseStart
    | CloseDone
    | EngineOk
    | ValidateOk
    | Fail
    | Roll
    | Play(started: bool)
    | PlayRefused
    | Finish
    | Cancel

  datatype Step =
    | Create(id: nat, kind: Kind, session: bool)
    | CleanupCompletes
    | CloseCompletes
    | Do(op: nat, act: Act)

  // ---------------------------------------------------------------- phases

  predicate AudioSettled(s: State) {
    s.cleanup.Finished? || (s.cleanup.NoTask? && !s.sender)
  }

  function FailPhase(o: Op): Phase {
    if o.session then FailAudio else FailRoll
  }

  function DropPhase(o: Op): Phase {
    if IsAudio(o.kind) then DropAudioOnly else if o.session then DropAudio else DropClose
  }

  function AfterProceed(s: State, o: Op): Phase {
    match o.kind
    case Connect => Ready
    case Reconnect => Ready
    case Retry => if s.intentional then Finishing else Ready
    case Disconnect => FailPhase(o)
    case PlayAudio => AudioStop
    case StopAudio => AudioStop
  }

  function AfterAudio(o: Op): Phase {
    match o.phase
    case RunAudio => RunBegin
    case FailAudio => FailRoll
    case AudioStop => if o.kind.PlayAudio? then AudioPlay else Finishing
    case AudioCleanup => Finishing
    case DropAudio => DropClose
    case _ => Done
  }

  predicate InAudio(p: Phase) {
    p.RunAudio? || p.FailAudio? || p.AudioStop? || p.AudioCleanup? || p.DropAudio? || p.DropAudioOnly?
  }

  predicate InClose(p: Phase) {
    p.RunClose? || p.RunEngine? || p.FailClose? || p.DropClose?
  }

  /** Where an act takes an operation, or nothing when the operation cannot do it now. */
  function NextPhase(s: State, o: Op, act: Act): Option<Phase> {
    match act
    case Request => if o.phase.New? && o.kind.Disconnect? then Some(Requested) else None
    case Subscribe =>
      if (o.phase.New? && !o.kind.Disconnect? && !IsAudio(o.kind)) || o.phase.Requested? then Some(Queued) else None
    case Acquire =>
      if s.gate.None? && (o.phase.Queued? || (o.phase.New? && IsAudio(o.kind))) then Some(Held) else None
    case Proceed => if o.phase.Held? then Some(AfterProceed(s, o)) else None
    case CheckRun =>
      if !o.phase.Ready? then None
      else if s.version != o.seen then Some(FailPhase(o))
      else Some(if o.session then RunAudio else RunBegin)
    case AudioStart => if InAudio(o.phase) then Some(o.phase) else None
    case AudioDone => if InAudio(o.phase) && AudioSettled(s) then Some(AfterAudio(o)) else None
    case Begin => if o.phase.RunBegin? then Some(if o.kind.Connect? then RunEngine else RunClose) else None
    case CloseStart => if InClose(o.phase) then Some(o.phase) else None
    case CloseDone =>
      if !InClose(o.phase) || !s.close.Finished? then None
      else Some(match o.phase case FailClose => Finishing case DropClose => Done case _ => RunEngine)
    case EngineOk =>
      if o.phase.RunEngine? && s.close.NoTask? then Some(if o.session then RunValidate else Finishing) else None
    case ValidateOk => if o.phase.RunValidate? then Some(Finishing) else None
    case Fail => if Running(o.phase) then Some(FailPhase(o)) else None
    case Roll => if o.phase.FailRoll? then Some(FailClose) else None
    case Play(started) => if o.phase.AudioPlay? then Some(if started then Finishing else AudioCleanup) else None
    case PlayRefused => if o.phase.AudioPlay? then Some(Finishing) else None
    case Finish => if o.phase.Finishing? then Some(Done) else None
    case Cancel =>
      if o.phase.New? || o.phase.Requested? || o.phase.Queued? then Some(Done)
      else if o.phase.Held? || o.phase.Ready? || Running(o.phase) || Failing(o.phase) || Playing(o.phase)
      then Some(DropPhase(o))
      else None
  }

  // ---------------------------------------------------------------- the rest of the state

  /** The start check of `run` passed: the flag reset is synchronized with the version by the watch lock. */
  predicate Starts(s: State, o: Op, act: Act) {
    act.CheckRun? && o.phase.Ready? && s.version == o.seen
  }

  function NextOp(s: State, o: Op, act: Act, phase: Phase): Op {
    match act
    case Request => o.(phase := phase, requestedAt := Some(|s.log|))
    case Subscribe => o.(phase := phase, seen := s.version, subscribedAt := Some(|s.log|))
    case Finish => o.(phase := phase, returned := true)
    case _ => o.(phase := phase)
  }

  function NextGate(s: State, id: nat, act: Act, phase: Phase): Option<nat> {
    if act.Acquire? then Some(id)
    else if s.gate == Some(id) && phase.Done? then None
    else s.gate
  }

  function NextIntentional(s: State, o: Op, act: Act): bool {
    if act.Request? then true else if Starts(s, o, act) then false else s.intentional
  }

  function NextConnected(s: State, act: Act, phase: Phase): bool {
    match act
    case EngineOk => true
    case Begin => false
    case Roll => false
    case AudioDone => if phase.DropClose? then false else s.connected
    case Cancel => if phase.DropClose? then false else s.connected
    case _ => s.connected
  }

  function NextCleanup(s: State, act: Act): Task {
    match act
    case AudioStart => if s.cleanup.NoTask? && s.sender then InFlight else s.cleanup
    case AudioDone => NoTask
    case _ => s.cleanup
  }

  function NextSender(s: State, act: Act): bool {
    match act
    case AudioStart => if s.cleanup.NoTask? then false else s.sender
    case Play(_) => true
    case _ => s.sender
  }

  function NextClose(s: State, act: Act): Task {
    match act
    case CloseStart => if s.close.NoTask? then InFlight else s.close
    case CloseDone => NoTask
    case _ => s.close
  }

  function NextLog(s: State, id: nat, o: Op, act: Act): seq<Event> {
    if act.Request? then s.log + [DidRequest(id)]
    else if act.Subscribe? then s.log + [DidSubscribe(id)]
    else if Starts(s, o, act) then s.log + [DidStart(id, o.kind)]
    else s.log
  }

  function Act1(s: State, id: nat, act: Act): Option<State> {
    if id !in s.ops then None
    else
      var o := s.ops[id];
      var phase := NextPhase(s, o, act);
      if phase.None? then None
      else Some(State(
        if act.Request? then s.version + 1 else s.version,
        NextIntentional(s, o, act),
        NextConnected(s, act, phase.value),
        if act.EngineOk? then id else s.connectedBy,
        NextGate(s, id, act, phase.value),
        s.ops[id := NextOp(s, o, act, phase.value)],
        NextSender(s, act),
        NextCleanup(s, act),
        NextClose(s, act),
        NextLog(s, id, o, act)))
  }

  function Next(s: State, step: Step): Option<State> {
    match step
    case Create(id, kind, session) =>
      if id in s.ops || (IsAudio(kind) && !session) then None
      else Some(s.(ops := s.ops[id := Op(kind, session, New, 0, None, None, false)]))
    case CleanupCompletes => if s.cleanup.InFlight? then Some(s.(cleanup := Finished)) else None
    case CloseCompletes => if s.close.InFlight? then Some(s.(close := Finished)) else None
    case Do(id, act) => Act1(s, id, act)
  }

  ghost predicate Run(states: seq<State>, steps: seq<Step>) {
    && |states| == |steps| + 1
    && states[0] == INITIAL
    && forall i :: 0 <= i < |steps| ==> Next(states[i], steps[i]) == Some(states[i + 1])
  }

  // ---------------------------------------------------------------- the synchronous sections, on the fields they update

  /** The fields of the connection service that attempts share. Each method is one atomic section of the machine. */
  class ConnectionFlags {
    var version: nat
    var intentional: bool
    var connected: bool

    ghost predicate Shows(s: State) reads this {
      version == s.version && intentional == s.intentional && connected == s.connected
    }

    constructor ()
      ensures Shows(INITIAL)
    {
      version, intentional, connected := 0, false, false;
    }

    /** `request_disconnect`: flag and version change together under the watch lock. */
    method RequestDisconnect(ghost s: State, ghost id: nat)
      requires Shows(s) && Act1(s, id, Request).Some?
      modifies this
      ensures Shows(Act1(s, id, Request).value)
    {
      intentional := true;
      version := version + 1;
    }

    /** The start check of `run`: an outdated attempt changes nothing, a current one clears the flag. */
    method StartCheck(seen: nat, ghost s: State, ghost id: nat) returns (ok: bool)
      requires Shows(s) && Act1(s, id, CheckRun).Some? && s.ops[id].seen == seen
      modifies this
      ensures ok == Starts(s, s.ops[id], CheckRun)
      ensures Shows(Act1(s, id, CheckRun).value)
    {
      if version != seen {
        return false;
      }
      intentional := false;
      return true;
    }

    /** The first half of `rollback_connection`, before the engine close is awaited. */
    method Rollback(ghost s: State, ghost id: nat)
      requires Shows(s) && Act1(s, id, Roll).Some?
      modifies this
      ensures Shows(Act1(s, id, Roll).value)
    {
      connected := false;
    }
  }

  /** The session's audio: a playing sender, or the cleanup that a stopped one has become. */
  class AudioPlayback {
    var sender: bool
    var cleanup: Task

    ghost predicate Shows(s: State) reads this { sender == s.sender && cleanup == s.cleanup }

    constructor ()
      ensures Shows(INITIAL)
    {
      sender, cleanup := false, NoTask;
    }

    /** `stop_audio_sender` up to its await: a stored cleanup is joined, never replaced. */
    method BeginStop(ghost s: State, ghost id: nat)
      requires Shows(s) && Act1(s, id, AudioStart).Some?
      modifies this
      ensures Shows(Act1(s, id, AudioStart).value)
    {
      if cleanup.NoTask? {
        if sender {
          sender := false;
          cleanup := InFlight;
        }
      }
    }

    /** `stop_audio_sender` after its await. */
    method EndStop(ghost s: State, ghost id: nat)
      requires Shows(s) && TasksOwned(s) && Act1(s, id, AudioDone).Some?
      modifies this
      ensures Shows(Act1(s, id, AudioDone).value) && cleanup.NoTask? && !sender
    {
      cleanup := NoTask;
    }

    /** The sender is owned before its start can fail. */
    method Play(started: bool, ghost s: State, ghost id: nat) returns (ok: bool)
      requires Shows(s) && Act1(s, id, Act.Play(started)).Some?
      modifies this
      ensures ok == started && Shows(Act1(s, id, Act.Play(started)).value)
    {
      sender := true;
      ok := started;
    }
  }

  // ---------------------------------------------------------------- gate, audio cleanup and engine close

  /** Audio phases belong to operations that own the session's audio, close phases to those that own the engine. */
  predicate PhaseFits(o: Op) {
    && (o.phase.RunAudio? || o.phase.FailAudio? || o.phase.DropAudio? ==> o.session && !IsAudio(o.kind))
    && (Running(o.phase) || Failing(o.phase) || o.phase.DropClose? || o.phase.Ready? ==> !IsAudio(o.kind))
    && (Playing(o.phase) || o.phase.DropAudioOnly? ==> IsAudio(o.kind))
    && (Running(o.phase) || o.phase.Ready? ==> !o.kind.Disconnect?)
  }

  predicate MayHaveClose(p: Phase) {
    p.RunClose? || p.RunEngine? || Failing(p) || p.DropAudio? || p.DropClose?
  }

  ghost predicate Exclusive(s: State) {
    && (forall id :: id in s.ops ==> (HoldsGate(s.ops[id].phase) <==> s.gate == Some(id)))
    && (s.gate.Some? ==> s.gate.value in s.ops)
    && (forall id :: id in s.ops ==> PhaseFits(s.ops[id]))
  }

  ghost predicate TasksOwned(s: State) {
    && (s.cleanup.NoTask? || !s.sender)
    && (!s.cleanup.NoTask? ==> s.gate.Some? && s.gate.value in s.ops && InAudio(s.ops[s.gate.value].phase))
    && (!s.close.NoTask? ==> s.gate.Some? && s.gate.value in s.ops && MayHaveClose(s.ops[s.gate.value].phase))
  }

  /** Which acts take the gate, which give it up, and that no act leaves an operation in a phase foreign to its kind. */
  lemma PhaseMoves(s: State, o: Op, act: Act, phase: Phase)
    requires NextPhase(s, o, act) == Some(phase) && PhaseFits(o)
    ensures act.Acquire? ==> s.gate.None? && HoldsGate(phase)
    ensures !act.Acquire? && HoldsGate(phase) ==> HoldsGate(o.phase)
    ensures HoldsGate(o.phase) && !HoldsGate(phase) ==> phase.Done?
    ensures PhaseFits(o.(phase := phase))
  {
    PhaseStaysFit(s, o, act, phase);
  }

  lemma PhaseStaysFit(s: State, o: Op, act: Act, phase: Phase)
    requires NextPhase(s, o, act) == Some(phase) && PhaseFits(o)
    ensures PhaseFits(o.(phase := phase))
  {
    match act
    case Proceed =>
    case CheckRun =>
    case AudioDone =>
    case Begin =>
    case CloseDone =>
    case EngineOk =>
    case Fail =>
    case Roll =>
    case Play(_) =>
    case Cancel =>
    case _ =>
  }

  lemma ActShape(s: State, id: nat, act: Act, s': State)
    requires Act1(s, id, act) == Some(s')
    ensures id in s.ops && NextPhase(s, s.ops[id], act).Some?
    ensures var phase := NextPhase(s, s.ops[id], act).value;
            && s'.ops == s.ops[id := NextOp(s, s.ops[id], act, phase)]
            && s'.gate == NextGate(s, id, act, phase)
            && s'.connected == NextConnected(s, act, phase)
            && s'.ops[id].phase == phase
  {
  }

  lemma StepKeepsExclusive(s: State, step: Step, s': State)
    requires Exclusive(s) && Next(s, step) == Some(s')
    ensures Exclusive(s')
  {
    if step.Do? {
      var id, act := step.op, step.act;
      ActShape(s, id, act, s');
      var o := s.ops[id];
      var phase := NextPhase(s, o, act).value;
      PhaseMoves(s, o, act, phase);
      ExclusiveUpdate(s, id, s'.ops[id], s');
    }
  }

  lemma ExclusiveUpdate(s: State, id: nat, o: Op, s': State)
    requires Exclusive(s) && id in s.ops && s'.ops == s.ops[id := o] && PhaseFits(o)
    requires || (s.gate.None? && s'.gate == Some(id) && HoldsGate(o.phase))
             || (s.gate == Some(id) && s'.gate == None && o.phase.Done?)
             || (s'.gate == s.gate && (HoldsGate(o.phase) <==> HoldsGate(s.ops[id].phase)))
    ensures Exclusive(s')
  {
  }

  lemma PhaseKeepsTasks(s: State, o: Op, act: Act, phase: Phase)
    requires NextPhase(s, o, act) == Some(phase) && PhaseFits(o)
    requires (!s.cleanup.NoTask? ==> InAudio(o.phase) && !s.sender) && (!s.close.NoTask? ==> MayHaveClose(o.phase))
    ensures NextCleanup(s, act).NoTask? || !NextSender(s, act)
    ensures !NextCleanup(s, act).NoTask? ==> InAudio(phase)
    ensures !NextClose(s, act).NoTask? ==> MayHaveClose(phase)
  {
  }

  lemma StepKeepsTasks(s: State, step: Step, s': State)
    requires Exclusive(s) && TasksOwned(s) && Next(s, step) == Some(s')
    ensures TasksOwned(s')
  {
    if step.Do? {
      var id, act := step.op, step.act;
      ActShape(s, id, act, s');
      PhaseMoves(s, s.ops[id], act, s'.ops[id].phase);
      if s.gate == Some(id) || s.gate.None? {
        PhaseKeepsTasks(s, s.ops[id], act, s'.ops[id].phase);
      }
    }
  }

  // ---------------------------------------------------------------- the intentional flag and the cancellation version

  predicate Explicit(k: Kind) { k.Connect? || k.Reconnect? }

  /** Between two log positions an explicit connect or reconnect subscribed and then passed its start check. */
  ghost predicate ClearedBetween(log: seq<Event>, i: int, j: int) {
    exists q, p :: 0 <= i < q < p < j <= |log| && log[p].DidStart? && Explicit(log[p].kind)
                   && log[q] == DidSubscribe(log[p].op)
  }

  ghost predicate AllCleared(log: seq<Event>) {
    forall i :: 0 <= i < |log| && log[i].DidRequest? ==> ClearedBetween(log, i, |log|)
  }

  ghost predicate NoRequestSince(log: seq<Event>, q: nat) {
    forall i :: q <= i < |log| ==> !log[i].DidRequest?
  }

  predicate PastSubscription(o: Op) {
    o.phase.Queued? || (o.phase.Held? && !IsAudio(o.kind)) || o.phase.Ready? || Running(o.phase)
  }

  /** The subscription is in the log, and the version has stayed at the one seen only while no request came since. */
  ghost predicate Subscription(s: State, id: nat, o: Op) {
    && (PastSubscription(o) ==> o.subscribedAt.Some?)
    && (o.subscribedAt.Some? ==>
          && o.subscribedAt.value < |s.log| && s.log[o.subscribedAt.value] == DidSubscribe(id)
          && o.seen <= s.version
          && (o.seen == s.version ==> NoRequestSince(s.log, o.subscribedAt.value)))
    && (o.phase.Ready? && o.kind.Retry? && o.seen == s.version ==> AllCleared(s.log))
  }

  /** The log's own laws: what every start check was preceded by. */
  ghost predicate StartsLegal(log: seq<Event>) {
    && (forall j, i :: 0 <= i < j < |log| && log[j].DidStart? && log[j].kind.Retry? && log[i].DidRequest? ==>
          ClearedBetween(log, i, j))
    && (forall k :: 0 <= k < |log| && log[k].DidStart? ==> FreshStart(log, k))
  }

  ghost predicate FreshStart(log: seq<Event>, k: int)
    requires 0 <= k < |log| && log[k].DidStart?
  {
    exists q :: 0 <= q < k && log[q] == DidSubscribe(log[k].op) && forall i :: q <= i < k ==> !log[i].DidRequest?
  }

  /** An operation's history agrees with the log, and is blank before the operation has acted. */
  ghost predicate Recorded(log: seq<Event>, o: Op) {
    && (o.requestedAt.Some? ==> o.requestedAt.value < |log| && log[o.requestedAt.value].DidRequest?)
    && (o.phase.New? ==> o.subscribedAt.None? && o.requestedAt.None?)
    && (o.phase.Requested? ==> o.subscribedAt.None?)
    && (o.kind.Disconnect? && !o.phase.New? && !o.phase.Done? ==> o.requestedAt.Some?)
    && (o.returned && o.kind.Disconnect? ==> o.requestedAt.Some?)
  }

  /** A log entry is the one its operation remembers, so each operation requests and subscribes at most once. */
  ghost predicate Remembered(ops: map<nat, Op>, log: seq<Event>, i: nat)
    requires i < |log|
  {
    && (log[i].DidSubscribe? ==> log[i].op in ops && ops[log[i].op].subscribedAt == Some(i))
    && (log[i].DidRequest? ==> log[i].op in ops && ops[log[i].op].requestedAt == Some(i))
  }

  ghost predicate LogRecorded(s: State) {
    && (forall i :: 0 <= i < |s.log| ==> Remembered(s.ops, s.log, i))
    && (forall id :: id in s.ops ==> Recorded(s.log, s.ops[id]))
  }

  ghost predicate FlagLaws(s: State) {
    && (!s.intentional ==> AllCleared(s.log))
    && (forall id :: id in s.ops ==> Subscription(s, id, s.ops[id]))
    && StartsLegal(s.log)
  }

  lemma ClearedExtends(log: seq<Event>, e: Event, i: int, j: int)
    requires ClearedBetween(log, i, j)
    ensures ClearedBetween(log + [e], i, j)
  {
    var q, p :| 0 <= i < q < p < j <= |log| && log[p].DidStart? && Explicit(log[p].kind) && log[q] == DidSubscribe(log[p].op);
    assert (log + [e])[p] == log[p] && (log + [e])[q] == log[q];
  }

  lemma ClearedWidens(log: seq<Event>, i: int, j: int, k: int)
    requires ClearedBetween(log, i, j) && j <= k <= |log|
    ensures ClearedBetween(log, i, k)
  {
  }

  lemma AllClearedExtends(log: seq<Event>, e: Event)
    requires AllCleared(log) && !e.DidRequest?
    ensures AllCleared(log + [e])
  {
    forall i | 0 <= i < |log + [e]| && (log + [e])[i].DidRequest?
      ensures ClearedBetween(log + [e], i, |log + [e]|)
    {
      ClearedExtends(log, e, i, |log|);
      ClearedWidens(log + [e], i, |log|, |log + [e]|);
    }
  }

  /** An event that is no start, or a start whose two obligations are met, keeps the log legal. */
  lemma StartsLegalExtends(log: seq<Event>, e: Event)
    requires StartsLegal(log)
    requires e.DidStart? ==> FreshStart(log + [e], |log|)
    requires e.DidStart? && e.kind.Retry? ==> AllCleared(log)
    ensures StartsLegal(log + [e])
  {
    var log' := log + [e];
    forall j, i | 0 <= i < j < |log'| && log'[j].DidStart? && log'[j].kind.Retry? && log'[i].DidRequest?
      ensures ClearedBetween(log', i, j)
    {
      ClearedExtends(log, e, i, j);
    }
    forall k | 0 <= k < |log'| && log'[k].DidStart?
      ensures FreshStart(log', k)
    {
      if k < |log| {
        assert FreshStart(log, k);
        var q :| 0 <= q < k && log[q] == DidSubscribe(log[k].op) && forall i :: q <= i < k ==> !log[i].DidRequest?;
        assert log'[q] == log[q];
      }
    }
  }

  /** A log that grows by one event keeps every other operation's record true, a request having outdated all of them. */
  lemma SubscriptionExtends(s: State, e: Event, id: nat, o: Op, s': State)
    requires Subscription(s, id, o) && s'.log == s.log + [e]
    requires s'.version == if e.DidRequest? then s.version + 1 else s.version
    ensures Subscription(s', id, o)
  {
    if o.phase.Ready? && o.kind.Retry? && o.seen == s'.version {
      AllClearedExtends(s.log, e);
    }
  }

  lemma OthersKeepSubscriptions(s: State, e: Event, id: nat, s': State)
    requires (forall k :: k in s.ops ==> Subscription(s, k, s.ops[k])) && id in s.ops
    requires s'.log == s.log + [e] && s'.version == if e.DidRequest? then s.version + 1 else s.version
    requires id in s'.ops && s'.ops == s.ops[id := s'.ops[id]] && Subscription(s', id, s'.ops[id])
    ensures forall k :: k in s'.ops ==> Subscription(s', k, s'.ops[k])
  {
    forall k | k in s'.ops
      ensures Subscription(s', k, s'.ops[k])
    {
      if k != id {
        SubscriptionExtends(s, e, k, s.ops[k], s');
      }
    }
  }

  lemma StartKeepsFlags(s: State, id: nat, s': State)
    requires FlagLaws(s) && id in s.ops && PhaseFits(s.ops[id])
    requires Starts(s, s.ops[id], CheckRun) && Act1(s, id, CheckRun) == Some(s')
    ensures FlagLaws(s')
  {
    var o, e := s.ops[id], DidStart(id, s.ops[id].kind);
    assert Subscription(s, id, o);
    var q := o.subscribedAt.value;
    assert s'.log == s.log + [e] && s'.log[q] == DidSubscribe(id) && s'.log[|s.log|] == e;
    assert FreshStart(s'.log, |s.log|);
    if o.kind.Retry? {
      AllClearedExtends(s.log, e);
    } else {
      forall i | 0 <= i < |s'.log| && s'.log[i].DidRequest?
        ensures ClearedBetween(s'.log, i, |s'.log|)
      {
        assert i < q < |s.log|;
      }
    }
    StartsLegalExtends(s.log, e);
    SubscriptionExtends(s, e, id, o, s');
    OthersKeepSubscriptions(s, e, id, s');
  }

  lemma LoggedKeepsFlags(s: State, id: nat, act: Act, s': State)
    requires FlagLaws(s) && LogRecorded(s) && (act.Request? || act.Subscribe?) && Act1(s, id, act) == Some(s')
    ensures FlagLaws(s')
  {
    var e := if act.Request? then DidRequest(id) else DidSubscribe(id);
    assert s'.log == s.log + [e];
    if !s'.intentional {
      AllClearedExtends(s.log, e);
    }
    StartsLegalExtends(s.log, e);
    assert Subscription(s', id, s'.ops[id]);
    OthersKeepSubscriptions(s, e, id, s');
  }

  lemma SilentKeepsFlags(s: State, id: nat, act: Act, s': State)
    requires FlagLaws(s) && id in s.ops && !act.Request? && !act.Subscribe? && !Starts(s, s.ops[id], act)
    requires Act1(s, id, act) == Some(s')
    ensures FlagLaws(s')
  {
    assert Subscription(s, id, s.ops[id]);
    ActShape(s, id, act, s');
    SilentKeepsSubscription(s, id, act, s');
    forall k | k in s'.ops
      ensures Subscription(s', k, s'.ops[k])
    {
      if k != id {
        assert Subscription(s, k, s.ops[k]);
      }
    }
  }

  lemma SilentKeepsSubscription(s: State, id: nat, act: Act, s': State)
    requires FlagLaws(s) && id in s.ops && Subscription(s, id, s.ops[id])
    requires !act.Request? && !act.Subscribe? && !Starts(s, s.ops[id], act) && Act1(s, id, act) == Some(s')
    ensures Subscription(s', id, s'.ops[id])
    ensures s'.log == s.log && s'.version == s.version && s'.intentional == s.intentional
  {
    ActShape(s, id, act, s');
    SilentPhase(s, s.ops[id], act, s'.ops[id].phase);
  }

  lemma SilentPhase(s: State, o: Op, act: Act, phase: Phase)
    requires NextPhase(s, o, act) == Some(phase) && !act.Request? && !act.Subscribe? && !Starts(s, o, act)
    ensures PastSubscription(o.(phase := phase)) ==> PastSubscription(o)
    ensures phase.Ready? && o.kind.Retry? ==> !s.intentional
    ensures NextOp(s, o, act, phase).seen == o.seen && NextOp(s, o, act, phase).subscribedAt == o.subscribedAt
  {
  }

  lemma StepKeepsFlags(s: State, step: Step, s': State)
    requires FlagLaws(s) && LogRecorded(s) && Exclusive(s) && Next(s, step) == Some(s')
    ensures FlagLaws(s')
  {
    if step.Do? {
      var id, act := step.op, step.act;
      if Starts(s, s.ops[id], act) {
        StartKeepsFlags(s, id, s');
      } else if act.Request? || act.Subscribe? {
        LoggedKeepsFlags(s, id, act, s');
      } else {
        SilentKeepsFlags(s, id, act, s');
      }
    } else {
      forall k | k in s'.ops
        ensures Subscription(s', k, s'.ops[k])
      {
        if k in s.ops {
          assert Subscription(s, k, s.ops[k]);
        }
      }
    }
  }

  lemma RecordKept(s: State, o: Op, act: Act, phase: Phase)
    requires NextPhase(s, o, act) == Some(phase) && Recorded(s.log, o) && PhaseFits(o)
    requires !act.Request? && !act.Subscribe?
    ensures Recorded(s.log, NextOp(s, o, act, phase))
    ensures NextOp(s, o, act, phase).subscribedAt == o.subscribedAt
    ensures NextOp(s, o, act, phase).requestedAt == o.requestedAt
  {
  }

  /** Growing the log by an event that the acting operation remembers, if it is a request or a subscription. */
  lemma LogGrows(s: State, id: nat, e: Event, s': State)
    requires LogRecorded(s) && id in s.ops && s'.log == s.log + [e] && e.op == id
    requires id in s'.ops && s'.ops == s.ops[id := s'.ops[id]] && Recorded(s'.log, s'.ops[id])
    requires e.DidSubscribe? ==> s.ops[id].subscribedAt.None? && s'.ops[id].subscribedAt == Some(|s.log|)
    requires !e.DidSubscribe? ==> s'.ops[id].subscribedAt == s.ops[id].subscribedAt
    requires e.DidRequest? ==> s.ops[id].requestedAt.None? && s'.ops[id].requestedAt == Some(|s.log|)
    requires !e.DidRequest? ==> s'.ops[id].requestedAt == s.ops[id].requestedAt
    ensures LogRecorded(s')
  {
    forall i | 0 <= i < |s'.log|
      ensures Remembered(s'.ops, s'.log, i)
    {
      if i < |s.log| {
        assert Remembered(s.ops, s.log, i);
      }
    }
    forall k | k in s'.ops
      ensures Recorded(s'.log, s'.ops[k])
    {
      if k != id {
        assert Recorded(s.log, s.ops[k]);
      }
    }
  }

  lemma SameLog(s: State, s': State)
    requires LogRecorded(s) && s'.log == s.log && forall id :: id in s.ops ==> id in s'.ops
    requires forall id :: id in s.ops ==>
               s'.ops[id].subscribedAt == s.ops[id].subscribedAt && s'.ops[id].requestedAt == s.ops[id].requestedAt
    requires forall id :: id in s'.ops ==> Recorded(s.log, s'.ops[id])
    ensures LogRecorded(s')
  {
    forall i | 0 <= i < |s'.log|
      ensures Remembered(s'.ops, s'.log, i)
    {
      assert Remembered(s.ops, s.log, i);
    }
  }

  lemma ActKeepsLog(s: State, id: nat, act: Act, s': State)
    requires LogRecorded(s) && Exclusive(s) && Act1(s, id, act) == Some(s')
    ensures LogRecorded(s')
  {
    ActShape(s, id, act, s');
    assert Recorded(s.log, s.ops[id]);
    if act.Request? {
      LogGrows(s, id, DidRequest(id), s');
    } else if act.Subscribe? {
      LogGrows(s, id, DidSubscribe(id), s');
    } else {
      RecordKept(s, s.ops[id], act, s'.ops[id].phase);
      if Starts(s, s.ops[id], act) {
        LogGrows(s, id, DidStart(id, s.ops[id].kind), s');
      } else {
        SameLog(s, s');
      }
    }
  }

  lemma StepKeepsLog(s: State, step: Step, s': State)
    requires LogRecorded(s) && Exclusive(s) && Next(s, step) == Some(s')
    ensures LogRecorded(s')
  {
    if step.Do? {
      ActKeepsLog(s, step.op, step.act, s');
    } else {
      SameLog(s, s');
    }
  }

  // ---------------------------------------------------------------- what a returned disconnect guarantees

  /** Every disconnect that has returned made its request before log position q. */
  ghost predicate ReturnedBefore(s: State, q: nat) {
    forall id :: id in s.ops && s.ops[id].returned && s.ops[id].kind.Disconnect? && s.ops[id].requestedAt.Some? ==>
      s.ops[id].requestedAt.value < q
  }

  ghost predicate After(s: State, o: Op) {
    o.subscribedAt.Some? && ReturnedBefore(s, o.subscribedAt.value)
  }

  /** Running attempts and the connected flag are newer than every returned disconnect. */
  ghost predicate Newer(s: State) {
    && (forall id :: id in s.ops && Running(s.ops[id].phase) ==> After(s, s.ops[id]))
    && (s.connected ==> s.connectedBy in s.ops && After(s, s.ops[s.connectedBy]))
    && (forall id :: id in s.ops && s.ops[id].kind.Disconnect? && (s.ops[id].phase.FailClose? || s.ops[id].phase.Finishing?) ==>
          !s.connected)
  }

  /** An act that returns no disconnect adds nothing to what must be older. */
  lemma ReturnedBeforeKept(s: State, id: nat, act: Act, s': State, q: nat)
    requires ReturnedBefore(s, q) && Act1(s, id, act) == Some(s') && LogRecorded(s)
    requires !(act.Finish? && s.ops[id].kind.Disconnect?)
    ensures ReturnedBefore(s', q)
  {
    assert Recorded(s.log, s.ops[id]);
  }

  lemma FinishKeepsNewer(s: State, id: nat, s': State)
    requires Newer(s) && Exclusive(s) && Act1(s, id, Finish) == Some(s') && s.ops[id].kind.Disconnect?
    ensures Newer(s')
  {
    assert s.gate == Some(id);
    forall k | k in s'.ops
      ensures !Running(s'.ops[k].phase)
    {
      assert k != id ==> !HoldsGate(s.ops[k].phase);
    }
  }

  /** An attempt that passes its start check has seen no request since it subscribed. */
  lemma StartIsNewer(s: State, id: nat)
    requires FlagLaws(s) && LogRecorded(s) && id in s.ops && Starts(s, s.ops[id], CheckRun)
    ensures After(s, s.ops[id])
  {
    assert Subscription(s, id, s.ops[id]);
    var q := s.ops[id].subscribedAt.value;
    forall k | k in s.ops && s.ops[k].returned && s.ops[k].kind.Disconnect? && s.ops[k].requestedAt.Some?
      ensures s.ops[k].requestedAt.value < q
    {
      assert Recorded(s.log, s.ops[k]);
    }
  }

  lemma RunningMoves(s: State, o: Op, act: Act, phase: Phase)
    requires NextPhase(s, o, act) == Some(phase) && PhaseFits(o)
    ensures Running(phase) ==> Running(o.phase) || Starts(s, o, act)
    ensures act.EngineOk? ==> Running(o.phase) && !o.kind.Disconnect?
    ensures o.kind.Disconnect? && phase.FailClose? ==> act.Roll? || o.phase.FailClose?
    ensures o.kind.Disconnect? && phase.Finishing? ==> o.phase.FailClose?
  {
  }

  lemma ActKeepsNewer(s: State, id: nat, act: Act, s': State)
    requires Newer(s) && Exclusive(s) && FlagLaws(s) && LogRecorded(s) && Act1(s, id, act) == Some(s')
    requires !(act.Finish? && s.ops[id].kind.Disconnect?)
    ensures Newer(s')
  {
    ActShape(s, id, act, s');
    RunningMoves(s, s.ops[id], act, s'.ops[id].phase);
    forall k | k in s'.ops && Running(s'.ops[k].phase)
      ensures After(s', s'.ops[k])
    {
      if Starts(s, s.ops[id], act) {
        StartIsNewer(s, id);
      }
      AfterKept(s, id, act, s', k);
    }
    if s'.connected {
      AfterKept(s, id, act, s', s'.connectedBy);
    }
    ActKeepsDown(s, id, act, s');
  }

  /** While a disconnect is past its rollback nobody else holds the gate, so the connected flag stays down. */
  lemma ActKeepsDown(s: State, id: nat, act: Act, s': State)
    requires Newer(s) && Exclusive(s) && Act1(s, id, act) == Some(s')
    ensures forall k :: k in s'.ops && s'.ops[k].kind.Disconnect? && (s'.ops[k].phase.FailClose? || s'.ops[k].phase.Finishing?) ==>
              !s'.connected
  {
    ActShape(s, id, act, s');
    RunningMoves(s, s.ops[id], act, s'.ops[id].phase);
    if act.EngineOk? {
      assert HoldsGate(s.ops[id].phase);
    }
  }

  lemma AfterKept(s: State, id: nat, act: Act, s': State, k: nat)
    requires LogRecorded(s) && Act1(s, id, act) == Some(s') && !(act.Finish? && s.ops[id].kind.Disconnect?)
    requires k in s.ops && After(s, s.ops[k])
    ensures k in s'.ops && After(s', s'.ops[k])
  {
    assert Recorded(s.log, s.ops[id]);
    ReturnedBeforeKept(s, id, act, s', s.ops[k].subscribedAt.value);
  }

  lemma QuietKeepsNewer(s: State, step: Step, s': State)
    requires Newer(s) && LogRecorded(s) && !step.Do? && Next(s, step) == Some(s')
    ensures Newer(s')
  {
    forall id | id in s.ops && After(s, s.ops[id])
      ensures After(s', s'.ops[id])
    {
      assert ReturnedBefore(s', s.ops[id].subscribedAt.value);
    }
  }

  lemma StepKeepsNewer(s: State, step: Step, s': State)
    requires Newer(s) && Exclusive(s) && FlagLaws(s) && LogRecorded(s) && Next(s, step) == Some(s')
    ensures Newer(s')
  {
    if !step.Do? {
      QuietKeepsNewer(s, step, s');
    } else if step.act.Finish? && s.ops[step.op].kind.Disconnect? {
      FinishKeepsNewer(s, step.op, s');
    } else {
      ActKeepsNewer(s, step.op, step.act, s');
    }
  }

  // ---------------------------------------------------------------- over every run

  ghost predicate Inv(s: State) {
    Exclusive(s) && TasksOwned(s) && FlagLaws(s) && LogRecorded(s) && Newer(s)
  }

  lemma StepKeepsInv(s: State, step: Step, s': State)
    requires Inv(s) && Next(s, step) == Some(s')
    ensures Inv(s')
  {
    StepKeepsExclusive(s, step, s');
    StepKeepsTasks(s, step, s');
    StepKeepsFlags(s, step, s');
    StepKeepsLog(s, step, s');
    StepKeepsNewer(s, step, s');
  }

  lemma InvHoldsOverEveryRun(states: seq<State>, steps: seq<Step>)
    requires Run(states, steps)
    ensures forall i :: 0 <= i < |states| ==> Inv(states[i])
  {
    for n := 0 to |steps|
      invariant forall i :: 0 <= i <= n ==> Inv(states[i])
    {
      StepKeepsInv(states[n], steps[n], states[n + 1]);
    }
  }

  /**
   No two operations own the gate, hence the engine and the audio sender, at once; and whenever the gate is free no
   audio cleanup and no engine close is under way.
   */
  lemma GateSerializesEngineAndAudio(states: seq<State>, steps: seq<Step>, n: nat)
    requires Run(states, steps) && n < |states|
    ensures forall a, b | a in states[n].ops && b in states[n].ops ::
              HoldsGate(states[n].ops[a].phase) && HoldsGate(states[n].ops[b].phase) ==> a == b
    ensures states[n].gate.None? ==> states[n].cleanup.NoTask? && states[n].close.NoTask?
    ensures !states[n].close.NoTask? ==>
              states[n].gate.Some? && states[n].gate.value in states[n].ops
              && MayHaveClose(states[n].ops[states[n].gate.value].phase)
    ensures !states[n].cleanup.NoTask? ==>
              states[n].gate.Some? && states[n].gate.value in states[n].ops
              && InAudio(states[n].ops[states[n].gate.value].phase)
  {
    InvHoldsOverEveryRun(states, steps);
    assert Exclusive(states[n]) && TasksOwned(states[n]);
  }

  /** The last act of a dropped operation: joining the engine close, or the audio cleanup for an audio operation. */
  function LastAct(o: Op): Act {
    if IsAudio(o.kind) then AudioDone else CloseDone
  }

  /** Where a cancelled operation can be while it drains. */
  predicate DropState(was: Op, o: Op) {
    && o.kind == was.kind && o.session == was.session
    && (if IsAudio(was.kind) then o.phase.DropAudioOnly? else o.phase.DropClose? || (o.phase.DropAudio? && was.session))
  }

  ghost predicate AudioJoined(steps: seq<Step>, i: nat, j: nat, id: nat) {
    exists k :: i < k < j <= |steps| && steps[k] == Do(id, AudioDone)
  }

  ghost predicate OwnsThrough(states: seq<State>, i: nat, j: nat, id: nat) {
    j < |states| && forall k :: i <= k <= j ==> states[k].gate == Some(id)
  }

  /** After its cancellation at step i, operation `id` still owns the gate before step j. */
  ghost predicate Draining(states: seq<State>, steps: seq<Step>, i: nat, j: nat, id: nat, was: Op) {
    && OwnsThrough(states, i, j, id)
    && id in states[j].ops && DropState(was, states[j].ops[id])
    && (states[j].ops[id].phase.DropClose? && was.session ==> AudioJoined(steps, i, j, id))
  }

  /** The gate was given up at step k and held up to there, with nothing left in flight. */
  ghost predicate DrainedAt(states: seq<State>, steps: seq<Step>, i: nat, k: nat, id: nat, was: Op) {
    && OwnsThrough(states, i, k, id)
    && k < |steps| && k + 1 < |states| && steps[k] == Do(id, LastAct(was))
    && (was.session && !IsAudio(was.kind) ==> AudioJoined(steps, i, k, id))
    && (if IsAudio(was.kind) then AudioSettled(states[k]) else states[k].close.Finished?)
    && states[k + 1].gate.None? && states[k + 1].cleanup.NoTask? && states[k + 1].close.NoTask?
  }

  ghost predicate Drained(states: seq<State>, steps: seq<Step>, i: nat, j: nat, id: nat, was: Op) {
    exists k :: i < k < j && DrainedAt(states, steps, i, k, id, was)
  }

  lemma DropMoves(s: State, was: Op, o: Op, act: Act, phase: Phase)
    requires NextPhase(s, o, act) == Some(phase) && DropState(was, o)
    ensures phase.Done? ==> act == LastAct(was) && o.phase == (if IsAudio(was.kind) then DropAudioOnly else DropClose)
    ensures phase.Done? ==> if IsAudio(was.kind) then AudioSettled(s) else s.close.Finished?
    ensures !phase.Done? ==> DropState(was, NextOp(s, o, act, phase))
    ensures phase.DropClose? ==> o.phase.DropClose? || act.AudioDone?
  {
  }

  lemma AudioStaysJoined(steps: seq<Step>, i: nat, j: nat, id: nat)
    requires AudioJoined(steps, i, j, id) && j < |steps|
    ensures AudioJoined(steps, i, j + 1, id)
  {
    var k :| i < k < j <= |steps| && steps[k] == Do(id, AudioDone);
    assert i < k < j + 1 <= |steps| && steps[k] == Do(id, AudioDone);
  }

  lemma OtherStepKeepsOwner(s: State, step: Step, s': State, id: nat)
    requires Exclusive(s) && Next(s, step) == Some(s') && s.gate == Some(id) && id in s.ops
    requires step.Do? ==> step.op != id
    ensures s'.gate == Some(id) && id in s'.ops && s'.ops[id] == s.ops[id]
  {
    if step.Do? {
      ActShape(s, step.op, step.act, s');
    }
  }

  lemma OwnStepDrains(s: State, id: nat, act: Act, s': State, was: Op)
    requires Act1(s, id, act) == Some(s') && s.gate == Some(id) && DropState(was, s.ops[id])
    ensures s'.ops[id].phase.Done? <==> s'.gate.None?
    ensures s'.gate.Some? ==> s'.gate == Some(id) && DropState(was, s'.ops[id])
    ensures s'.gate.None? ==> act == LastAct(was) && (IsAudio(was.kind) || s.ops[id].phase.DropClose?)
    ensures s'.gate.None? ==> if IsAudio(was.kind) then AudioSettled(s) else s.close.Finished?
    ensures s'.ops[id].phase.DropClose? ==> s.ops[id].phase.DropClose? || act.AudioDone?
  {
    ActShape(s, id, act, s');
    DropMoves(s, was, s.ops[id], act, s'.ops[id].phase);
  }

  lemma DrainingStep(states: seq<State>, steps: seq<Step>, i: nat, j: nat, id: nat, was: Op)
    requires i < j < |steps| && |states| == |steps| + 1 && Next(states[j], steps[j]) == Some(states[j + 1])
    requires Draining(states, steps, i, j, id, was)
    requires Exclusive(states[j]) && TasksOwned(states[j + 1])
    ensures Draining(states, steps, i, j + 1, id, was) || DrainedAt(states, steps, i, j, id, was)
  {
    if AudioJoined(steps, i, j, id) {
      AudioStaysJoined(steps, i, j, id);
    }
    if steps[j].Do? && steps[j].op == id {
      OwnStepDrains(states[j], id, steps[j].act, states[j + 1], was);
      if steps[j].act.AudioDone? {
        assert AudioJoined(steps, i, j + 1, id);
      }
    } else {
      OtherStepKeepsOwner(states[j], steps[j], states[j + 1], id);
    }
  }

  lemma CancelStartsDraining(s: State, id: nat, s': State)
    requires Exclusive(s) && s.gate == Some(id) && Act1(s, id, Cancel) == Some(s')
    ensures s'.gate == Some(id) && id in s'.ops && DropState(s.ops[id], s'.ops[id])
    ensures s'.ops[id].phase.DropClose? ==> !s.ops[id].session
  {
    ActShape(s, id, Cancel, s');
    assert HoldsGate(s.ops[id].phase);
  }

  /**
   Cancelling an operation that owns the gate, at any await point: it keeps owning it until it has joined its audio
   cleanup, if it owns the session's audio, and then its engine close, and gives it up at that very step.
   */
  lemma CancelledOperationDrainsFirst(states: seq<State>, steps: seq<Step>, i: nat, j: nat, id: nat)
    requires Run(states, steps) && i < j < |states|
    requires steps[i] == Do(id, Cancel) && states[i].gate == Some(id)
    ensures id in states[i].ops
    ensures Draining(states, steps, i, j, id, states[i].ops[id]) || Drained(states, steps, i, j, id, states[i].ops[id])
  {
    RunStep(states, steps, i);
    CancelStartsDraining(states[i], id, states[i + 1]);
    if i + 1 < j {
      CancelledDrainsOn(states, steps, i, j, id, states[i].ops[id]);
    }
  }

  lemma RunStep(states: seq<State>, steps: seq<Step>, n: nat)
    requires Run(states, steps) && n < |steps|
    ensures Next(states[n], steps[n]) == Some(states[n + 1]) && Exclusive(states[n]) && TasksOwned(states[n + 1])
  {
    InvHoldsOverEveryRun(states, steps);
    assert Inv(states[n]) && Inv(states[n + 1]);
  }

  lemma {:induction false} CancelledDrainsOn(states: seq<State>, steps: seq<Step>, i: nat, j: nat, id: nat, was: Op)
    requires Run(states, steps) && i + 1 < j < |states| && Draining(states, steps, i, i + 1, id, was)
    ensures Draining(states, steps, i, j, id, was) || Drained(states, steps, i, j, id, was)
    decreases j
  {
    var m := j - 1;
    if i + 1 < m {
      CancelledDrainsOn(states, steps, i, m, id, was);
    }
    if Draining(states, steps, i, m, id, was) {
      RunStep(states, steps, m);
      DrainingStep(states, steps, i, m, id, was);
    } else {
      DrainedStays(states, steps, i, m, id, was);
    }
  }

  lemma DrainedStays(states: seq<State>, steps: seq<Step>, i: nat, m: nat, id: nat, was: Op)
    requires Drained(states, steps, i, m, id, was)
    ensures Drained(states, steps, i, m + 1, id, was)
  {
  }

  // ---------------------------------------------------------------- the log is the run's own history

  /** Step m wrote entry p of the log. */
  ghost predicate Wrote(states: seq<State>, steps: seq<Step>, m: nat, p: nat, e: Event) {
    m < |steps| && |states| == |steps| + 1 && |states[m].log| == p && states[m + 1].log == states[m].log + [e]
  }

  lemma LogGrowsByPrefix(states: seq<State>, steps: seq<Step>, m: nat, n: nat)
    requires Run(states, steps) && m <= n < |states|
    ensures |states[m].log| <= |states[n].log| && states[n].log[..|states[m].log|] == states[m].log
  {
    for k := m to n
      invariant |states[m].log| <= |states[k].log| && states[k].log[..|states[m].log|] == states[m].log
    {
      assert Next(states[k], steps[k]) == Some(states[k + 1]);
      LogStep(states[k], steps[k], states[k + 1]);
    }
  }

  lemma LogStep(s: State, step: Step, s': State)
    requires Next(s, step) == Some(s')
    ensures s'.log == s.log || (|s'.log| == |s.log| + 1 && s'.log[..|s.log|] == s.log)
  {
  }

  lemma EntryHasWriter(states: seq<State>, steps: seq<Step>, n: nat, p: nat) returns (m: nat)
    requires Run(states, steps) && n < |states| && p < |states[n].log|
    ensures m < n && Wrote(states, steps, m, p, states[n].log[p])
  {
    m := 0;
    while |states[m + 1].log| <= p
      invariant m < n && |states[m].log| <= p
      decreases n - m
    {
      m := m + 1;
    }
    assert Next(states[m], steps[m]) == Some(states[m + 1]);
    LogStep(states[m], steps[m], states[m + 1]);
    LogGrowsByPrefix(states, steps, m + 1, n);
    assert states[n].log[p] == states[n].log[..|states[m + 1].log|][p];
    assert states[m + 1].log == states[m].log + [states[n].log[p]];
  }

  lemma WritersInOrder(states: seq<State>, steps: seq<Step>, a: nat, p: nat, e: Event, b: nat, q: nat, f: Event)
    requires Run(states, steps) && Wrote(states, steps, a, p, e) && Wrote(states, steps, b, q, f)
    ensures p < q <==> a < b
  {
    if a < b {
      LogGrowsByPrefix(states, steps, a + 1, b);
    } else {
      LogGrowsByPrefix(states, steps, b, a);
    }
  }

  lemma WrittenStays(states: seq<State>, steps: seq<Step>, m: nat, p: nat, e: Event, n: nat)
    requires Run(states, steps) && Wrote(states, steps, m, p, e) && m < n < |states|
    ensures p < |states[n].log| && states[n].log[p] == e
  {
    LogGrowsByPrefix(states, steps, m + 1, n);
    assert states[n].log[p] == states[n].log[..|states[m + 1].log|][p];
  }

  /** An entry's writer did what the entry says. */
  lemma WriterActed(states: seq<State>, steps: seq<Step>, m: nat, p: nat, e: Event)
    requires Run(states, steps) && Wrote(states, steps, m, p, e)
    ensures e.DidSubscribe? ==> steps[m] == Do(e.op, Subscribe)
    ensures e.DidRequest? ==> steps[m] == Do(e.op, Request)
    ensures e.DidStart? ==> StartsAt(states, steps, m, e.op) && states[m].ops[e.op].kind == e.kind
  {
    assert Next(states[m], steps[m]) == Some(states[m + 1]);
    assert states[m + 1].log[p] == e;
  }

  // ---------------------------------------------------------------- main results on the intentional flag

  /** At step n the attempt `id` passes the start check of `run`. */
  ghost predicate StartsAt(states: seq<State>, steps: seq<Step>, n: nat, id: nat) {
    && n < |steps| && n < |states|
    && steps[n] == Do(id, CheckRun) && id in states[n].ops && Starts(states[n], states[n].ops[id], CheckRun)
  }

  ghost predicate ExplicitStartBetween(states: seq<State>, steps: seq<Step>, m: nat, n: nat) {
    exists a: nat, b: nat, x: nat :: m < a < b < n && n <= |steps| && StartsAt(states, steps, b, x)
      && Explicit(states[b].ops[x].kind) && steps[a] == Do(x, Subscribe)
  }

  lemma StartsLegalOverRun(states: seq<State>, steps: seq<Step>, n: nat)
    requires Run(states, steps) && n < |states|
    ensures StartsLegal(states[n].log)
  {
    InvHoldsOverEveryRun(states, steps);
    assert Inv(states[n]);
  }

  /** A retry passes its start check after a disconnect request only once a later-subscribed connect or reconnect did. */
  lemma RetryStartsOnlyAfterExplicitStart(states: seq<State>, steps: seq<Step>, m: nat, n: nat, d: nat, r: nat)
    requires Run(states, steps) && m < n < |steps| && steps[m] == Do(d, Request)
    requires StartsAt(states, steps, n, r) && states[n].ops[r].kind.Retry?
    ensures ExplicitStartBetween(states, steps, m, n)
  {
    StartsLegalOverRun(states, steps, n + 1);
    assert Next(states[m], steps[m]) == Some(states[m + 1]) && Next(states[n], steps[n]) == Some(states[n + 1]);
    var i, j, log := |states[m].log|, |states[n].log|, states[n + 1].log;
    assert Wrote(states, steps, m, i, DidRequest(d)) && Wrote(states, steps, n, j, DidStart(r, Retry));
    WrittenStays(states, steps, m, i, DidRequest(d), n + 1);
    WrittenStays(states, steps, n, j, DidStart(r, Retry), n + 1);
    WritersInOrder(states, steps, m, i, DidRequest(d), n, j, DidStart(r, Retry));
    assert ClearedBetween(log, i, j);
    var q, p :| 0 <= i < q < p < j <= |log| && log[p].DidStart? && Explicit(log[p].kind) && log[q] == DidSubscribe(log[p].op);
    var a := EntryHasWriter(states, steps, n + 1, q);
    var b := EntryHasWriter(states, steps, n + 1, p);
    WriterActed(states, steps, a, q, log[q]);
    WriterActed(states, steps, b, p, log[p]);
    WritersInOrder(states, steps, m, i, DidRequest(d), a, q, log[q]);
    WritersInOrder(states, steps, a, q, log[q], b, p, log[p]);
    WritersInOrder(states, steps, b, p, log[p], n, j, DidStart(r, Retry));
    assert StartsAt(states, steps, b, log[p].op) && steps[a] == Do(log[p].op, Subscribe);
  }

  /** An attempt that passes its start check finds no request in the log after its only subscription. */
  lemma StartSawNoRequest(s: State, x: nat, q: nat)
    requires FlagLaws(s) && LogRecorded(s) && x in s.ops && Starts(s, s.ops[x], CheckRun)
    requires q < |s.log| && s.log[q] == DidSubscribe(x)
    ensures NoRequestSince(s.log, q)
  {
    assert Remembered(s.ops, s.log, q);
    assert Subscription(s, x, s.ops[x]);
  }

  lemma LawsOverRun(states: seq<State>, steps: seq<Step>, n: nat)
    requires Run(states, steps) && n < |states|
    ensures FlagLaws(states[n]) && LogRecorded(states[n])
  {
    InvHoldsOverEveryRun(states, steps);
    assert Inv(states[n]);
  }

  /** An attempt that had subscribed when a disconnect was requested never passes its start check afterwards. */
  lemma RequestOutdatesQueuedAttempts(states: seq<State>, steps: seq<Step>, a: nat, m: nat, n: nat, d: nat, x: nat)
    requires Run(states, steps) && a < m < n < |steps| && steps[a] == Do(x, Subscribe) && steps[m] == Do(d, Request)
    ensures !StartsAt(states, steps, n, x)
  {
    LawsOverRun(states, steps, n);
    assert Next(states[a], steps[a]) == Some(states[a + 1]) && Next(states[m], steps[m]) == Some(states[m + 1]);
    var q, i := |states[a].log|, |states[m].log|;
    assert Wrote(states, steps, a, q, DidSubscribe(x)) && Wrote(states, steps, m, i, DidRequest(d));
    WrittenStays(states, steps, a, q, DidSubscribe(x), n);
    WrittenStays(states, steps, m, i, DidRequest(d), n);
    WritersInOrder(states, steps, a, q, DidSubscribe(x), m, i, DidRequest(d));
    if StartsAt(states, steps, n, x) {
      StartSawNoRequest(states[n], x, q);
    }
  }

  // ---------------------------------------------------------------- main result on the connected flag

  ghost predicate SetConnected(steps: seq<Step>, n: nat, x: nat) {
    exists e :: 0 <= e < n <= |steps| && steps[e] == Do(x, EngineOk)
  }

  lemma ConnectedWasSet(states: seq<State>, steps: seq<Step>, n: nat)
    requires Run(states, steps) && n < |states| && states[n].connected
    ensures SetConnected(steps, n, states[n].connectedBy)
  {
    for k := 0 to n
      invariant states[k].connected ==> SetConnected(steps, k, states[k].connectedBy)
    {
      assert Next(states[k], steps[k]) == Some(states[k + 1]);
      if states[k + 1].connected {
        if steps[k].Do? && steps[k].act.EngineOk? {
          assert SetConnected(steps, k + 1, steps[k].op);
        } else {
          ConnectedCarries(states[k], steps[k], states[k + 1]);
          var e :| 0 <= e < k && steps[e] == Do(states[k].connectedBy, EngineOk);
          assert SetConnected(steps, k + 1, states[k].connectedBy);
        }
      }
    }
  }

  lemma ConnectedCarries(s: State, step: Step, s': State)
    requires Next(s, step) == Some(s') && s'.connected && !(step.Do? && step.act.EngineOk?)
    ensures s.connected && s'.connectedBy == s.connectedBy
  {
  }

  ghost predicate SubscribedBetween(steps: seq<Step>, m: nat, n: nat, x: nat) {
    exists a :: m < a < n <= |steps| && steps[a] == Do(x, Subscribe)
  }

  /** Once a disconnect has returned, only an attempt that subscribed after its request can have set the connected flag. */
  lemma ConnectedOnlyThroughLaterAttempt(states: seq<State>, steps: seq<Step>, m: nat, n: nat, d: nat)
    requires Run(states, steps) && m < n < |states| && steps[m] == Do(d, Request)
    requires d in states[n].ops && states[n].ops[d].returned && states[n].connected
    ensures SetConnected(steps, n, states[n].connectedBy)
    ensures SubscribedBetween(steps, m, n, states[n].connectedBy)
  {
    InvHoldsOverEveryRun(states, steps);
    ConnectedWasSet(states, steps, n);
    var s := states[n];
    var x := s.connectedBy;
    assert Next(states[m], steps[m]) == Some(states[m + 1]);
    var i := |states[m].log|;
    assert Wrote(states, steps, m, i, DidRequest(d));
    WrittenStays(states, steps, m, i, DidRequest(d), n);
    assert Inv(s) && Remembered(s.ops, s.log, i);
    RequesterIsDisconnect(states, steps, m, n, d);
    assert Subscription(s, x, s.ops[x]);
    var q := s.ops[x].subscribedAt.value;
    var a := EntryHasWriter(states, steps, n, q);
    WriterActed(states, steps, a, q, s.log[q]);
    WritersInOrder(states, steps, m, i, DidRequest(d), a, q, s.log[q]);
  }

  lemma RequesterIsDisconnect(states: seq<State>, steps: seq<Step>, m: nat, n: nat, d: nat)
    requires Run(states, steps) && m < n < |states| && steps[m] == Do(d, Request)
    ensures d in states[n].ops && states[n].ops[d].kind.Disconnect?
  {
    assert Next(states[m], steps[m]) == Some(states[m + 1]);
    for k := m + 1 to n
      invariant d in states[k].ops && states[k].ops[d].kind.Disconnect?
    {
      assert Next(states[k], steps[k]) == Some(states[k + 1]);
      KindStays(states[k], steps[k], states[k + 1], d);
    }
  }

  lemma KindStays(s: State, step: Step, s': State, d: nat)
    requires Next(s, step) == Some(s') && d in s.ops
    ensures d in s'.ops && s'.ops[d].kind == s.ops[d].kind
  {
  }

  // ---------------------------------------------------------------- exactly when the flags are up

  predicate Does(step: Step, act: Act) { step.Do? && step.act == act }

  /** The step resets the connected flag: a new attempt begins, a rollback, or a dropped attempt reaches its close. */
  predicate Lowers(s: State, step: Step, s': State) {
    || Does(step, Begin) || Does(step, Roll)
    || (step.Do? && step.op in s.ops && step.op in s'.ops && s'.ops[step.op].phase.DropClose? && !s.ops[step.op].phase.DropClose?)
  }

  lemma ConnectedStep(s: State, step: Step, s': State)
    requires Next(s, step) == Some(s')
    ensures Does(step, EngineOk) ==> s'.connected && s'.connectedBy == step.op && !Lowers(s, step, s')
    ensures Lowers(s, step, s') ==> !s'.connected
    ensures !Does(step, EngineOk) && !Lowers(s, step, s') ==> s'.connected == s.connected
    ensures !Does(step, EngineOk) ==> s'.connectedBy == s.connectedBy
  {
    if step.Do? {
      ActShape(s, step.op, step.act, s');
      ConnectedByAct(s, s.ops[step.op], step.act, s'.ops[step.op].phase);
    }
  }

  lemma ConnectedByAct(s: State, o: Op, act: Act, phase: Phase)
    requires NextPhase(s, o, act) == Some(phase)
    ensures act.EngineOk? ==> NextConnected(s, act, phase) && !phase.DropClose?
    ensures act.Begin? || act.Roll? || (phase.DropClose? && !o.phase.DropClose?) ==> !NextConnected(s, act, phase)
    ensures !act.EngineOk? && !act.Begin? && !act.Roll? && (phase.DropClose? ==> o.phase.DropClose?) ==>
              NextConnected(s, act, phase) == s.connected
  {
  }

  /** Some operation connected at step e, and nothing has lowered the flag since. */
  ghost predicate ConnectedSince(states: seq<State>, steps: seq<Step>, e: nat, n: nat) {
    && e < n <= |steps| && n < |states| && Does(steps[e], EngineOk)
    && forall j :: e < j < n ==> !Lowers(states[j], steps[j], states[j + 1])
  }

  function ConnectedFlags(states: seq<State>): seq<bool> {
    seq(|states|, i requires 0 <= i < |states| => states[i].connected)
  }

  function ConnectSteps(steps: seq<Step>): seq<bool> {
    seq(|steps|, i requires 0 <= i < |steps| => Does(steps[i], EngineOk))
  }

  function LoweringSteps(states: seq<State>, steps: seq<Step>): seq<bool>
    requires |states| == |steps| + 1
  {
    seq(|steps|, i requires 0 <= i < |steps| => Lowers(states[i], steps[i], states[i + 1]))
  }

  lemma ConnectedFollows(states: seq<State>, steps: seq<Step>)
    requires Run(states, steps)
    ensures Follows(ConnectedFlags(states), ConnectSteps(steps), LoweringSteps(states, steps))
  {
    forall i, k | 0 <= i < |steps| && k == i + 1
      ensures states[k].connected
           == (Does(steps[i], EngineOk) || (states[i].connected && !Lowers(states[i], steps[i], states[k])))
    {
      ConnectedAt(states, steps, i);
    }
  }

  /** The connected flag is up exactly when some operation connected and nothing has lowered the flag since. */
  lemma ConnectedExactlyWhen(states: seq<State>, steps: seq<Step>, n: nat)
    requires Run(states, steps) && n < |states|
    ensures states[n].connected <==> exists e: nat :: ConnectedSince(states, steps, e, n)
  {
    ConnectedFollows(states, steps);
    var ups, downs := ConnectSteps(steps), LoweringSteps(states, steps);
    UpExactlyWhen(ConnectedFlags(states), ups, downs, n);
    if Raised(ups, downs, n) {
      var e: nat :| UpSince(ups, downs, e, n);
      SameSince(states, steps, ups, downs, e, n);
    } else {
      forall e: nat
        ensures !ConnectedSince(states, steps, e, n)
      {
        if e < n {
          SameSince(states, steps, ups, downs, e, n);
        }
      }
    }
  }

  lemma ConnectedAt(states: seq<State>, steps: seq<Step>, i: nat)
    requires Run(states, steps) && i < |steps|
    ensures states[i + 1].connected ==
      (Does(steps[i], EngineOk) || (states[i].connected && !Lowers(states[i], steps[i], states[i + 1])))
  {
    assert Next(states[i], steps[i]) == Some(states[i + 1]);
    ConnectedStep(states[i], steps[i], states[i + 1]);
  }

  lemma SameSince(states: seq<State>, steps: seq<Step>, ups: seq<bool>, downs: seq<bool>, e: nat, n: nat)
    requires |states| == |steps| + 1 && |ups| == |downs| == |steps| && e < n < |states|
    requires ups[e] == Does(steps[e], EngineOk)
    requires forall j :: 0 <= j < |steps| ==> downs[j] == Lowers(states[j], steps[j], states[j + 1])
    ensures UpSince(ups, downs, e, n) <==> ConnectedSince(states, steps, e, n)
  {
    if UpSince(ups, downs, e, n) {
      forall j | e < j < n
        ensures !Lowers(states[j], steps[j], states[j + 1])
      {
        assert !downs[j];
      }
    } else if ConnectedSince(states, steps, e, n) {
      forall j | e < j < n
        ensures !downs[j]
      {
        assert !Lowers(states[j], steps[j], states[j + 1]);
      }
    }
  }

  /** After its engine connected, an operation is on its way to return, or was dropped or failed. */
  ghost predicate Succeeding(s: State, x: nat) {
    x in s.ops && (s.ops[x].phase.RunValidate? || s.ops[x].phase.Finishing?) && s.connected && s.connectedBy == x
  }

  ghost predicate OffTrack(s: State, x: nat) {
    x in s.ops && (Dropping(s.ops[x].phase) || s.ops[x].phase.Done?)
  }

  lemma SucceedingStep(s: State, step: Step, s': State, x: nat)
    requires Exclusive(s) && Next(s, step) == Some(s') && step != Do(x, Fail)
    requires Succeeding(s, x) || OffTrack(s, x)
    ensures Succeeding(s', x) || OffTrack(s', x)
    ensures step == Do(x, Finish) ==> Succeeding(s, x)
  {
    if step.Do? && step.op == x {
      OwnSucceedingStep(s, x, step.act, s');
    } else if step.Do? {
      ActShape(s, step.op, step.act, s');
      if Succeeding(s, x) {
        assert HoldsGate(s.ops[x].phase) && !HoldsGate(s.ops[step.op].phase);
        OutsiderKeepsConnected(s, step.op, step.act, s');
      }
    }
  }

  lemma OwnSucceedingStep(s: State, x: nat, act: Act, s': State)
    requires Act1(s, x, act) == Some(s') && !act.Fail? && (Succeeding(s, x) || OffTrack(s, x))
    ensures Succeeding(s', x) || OffTrack(s', x)
    ensures act.Finish? ==> Succeeding(s, x)
  {
    ActShape(s, x, act, s');
  }

  lemma OutsiderKeepsConnected(s: State, id: nat, act: Act, s': State)
    requires Act1(s, id, act) == Some(s') && !HoldsGate(s.ops[id].phase)
    ensures s'.connected == s.connected && s'.connectedBy == s.connectedBy
  {
  }

  /** An operation that connects the engine and later returns, without failing in between, leaves the flag up as its own. */
  lemma SuccessLeavesConnected(states: seq<State>, steps: seq<Step>, e: nat, f: nat, x: nat)
    requires Run(states, steps) && e < f < |steps| && steps[e] == Do(x, EngineOk) && steps[f] == Do(x, Finish)
    requires forall j :: e < j < f ==> steps[j] != Do(x, Fail)
    ensures states[f + 1].connected && states[f + 1].connectedBy == x
  {
    assert Next(states[e], steps[e]) == Some(states[e + 1]);
    assert Succeeding(states[e + 1], x);
    for j := e + 1 to f
      invariant Succeeding(states[j], x) || OffTrack(states[j], x)
    {
      RunStep(states, steps, j);
      SucceedingStep(states[j], steps[j], states[j + 1], x);
    }
    RunStep(states, steps, f);
    SucceedingStep(states[f], steps[f], states[f + 1], x);
    ConnectedStep(states[f], steps[f], states[f + 1]);
  }

  ghost predicate Validated(steps: seq<Step>, e: nat, n: nat, x: nat) {
    exists v :: e < v < n <= |steps| && steps[v] == Do(x, ValidateOk)
  }

  /** A session's attempt that connects the engine and returns without failing has waited for its validation. */
  lemma SessionSuccessWasValidated(states: seq<State>, steps: seq<Step>, e: nat, f: nat, x: nat)
    requires Run(states, steps) && e < f < |steps| && steps[e] == Do(x, EngineOk) && steps[f] == Do(x, Finish)
    requires x in states[e].ops && states[e].ops[x].session && forall j :: e < j < f ==> steps[j] != Do(x, Fail)
    ensures Validated(steps, e, f, x)
  {
    assert Next(states[e], steps[e]) == Some(states[e + 1]);
    for j := e + 1 to f
      invariant x in states[j].ops
      invariant states[j].ops[x].phase.RunValidate? || OffTrack(states[j], x) || Validated(steps, e, j, x)
    {
      assert Next(states[j], steps[j]) == Some(states[j + 1]);
      ValidatingStep(states[j], steps[j], states[j + 1], x);
      if steps[j] == Do(x, ValidateOk) {
        assert Validated(steps, e, j + 1, x);
      } else if Validated(steps, e, j, x) {
        var v :| e < v < j && steps[v] == Do(x, ValidateOk);
        assert Validated(steps, e, j + 1, x);
      }
    }
    assert Next(states[f], steps[f]) == Some(states[f + 1]);
  }

  lemma ValidatingStep(s: State, step: Step, s': State, x: nat)
    requires Next(s, step) == Some(s') && x in s.ops && step != Do(x, Fail)
    ensures x in s'.ops
    ensures s.ops[x].phase.RunValidate? && step != Do(x, ValidateOk) ==> s'.ops[x].phase.RunValidate? || OffTrack(s', x)
    ensures OffTrack(s, x) ==> OffTrack(s', x)
  {
    if step.Do? {
      ActShape(s, step.op, step.act, s');
    }
  }

  predicate StartStep(s: State, step: Step) {
    step.Do? && step.op in s.ops && Starts(s, s.ops[step.op], step.act)
  }

  ghost predicate RequestedSince(states: seq<State>, steps: seq<Step>, r: nat, n: nat) {
    && r < n <= |steps| && n < |states| && Does(steps[r], Request)
    && forall j :: r < j < n ==> !StartStep(states[j], steps[j])
  }

  lemma IntentionalStep(s: State, step: Step, s': State)
    requires Next(s, step) == Some(s')
    ensures s'.intentional == if Does(step, Request) then true else if StartStep(s, step) then false else s.intentional
    ensures s'.version == if Does(step, Request) then s.version + 1 else s.version
  {
  }

  /** The intentional flag is up exactly when a disconnect was requested and no attempt has passed its start check since. */
  lemma IntentionalExactlyWhen(states: seq<State>, steps: seq<Step>, n: nat)
    requires Run(states, steps) && n < |states|
    ensures states[n].intentional <==> exists r: nat :: RequestedSince(states, steps, r, n)
  {
    var flags := seq(|states|, i requires 0 <= i < |states| => states[i].intentional);
    var ups := seq(|steps|, i requires 0 <= i < |steps| => Does(steps[i], Request));
    var downs := seq(|steps|, i requires 0 <= i < |steps| => StartStep(states[i], steps[i]));
    forall i, k | 0 <= i < |ups| && k == i + 1
      ensures flags[k] == (ups[i] || (flags[i] && !downs[i]))
    {
      assert Next(states[i], steps[i]) == Some(states[i + 1]);
      IntentionalStep(states[i], steps[i], states[i + 1]);
    }
    UpExactlyWhen(flags, ups, downs, n);
    forall r: nat
      ensures UpSince(ups, downs, r, n) <==> RequestedSince(states, steps, r, n)
    {
      assert r < n ==> ups[r] == Does(steps[r], Request);
      assert forall j :: r < j < n ==> downs[j] == StartStep(states[j], steps[j]);
    }
  }

  ghost predicate PlayedSince(steps: seq<Step>, p: nat, n: nat) {
    && p < n <= |steps| && steps[p].Do? && steps[p].act.Play?
    && forall j :: p < j < n ==> !Does(steps[j], AudioStart)
  }

  lemma SenderStep(s: State, step: Step, s': State)
    requires TasksOwned(s) && Next(s, step) == Some(s')
    ensures s'.sender == if step.Do? && step.act.Play? then true else if Does(step, AudioStart) then false else s.sender
    ensures Does(step, AudioStart) && s.sender ==> s'.cleanup.InFlight?
  {
  }

  lemma TasksOwnedAt(states: seq<State>, steps: seq<Step>, n: nat)
    requires Run(states, steps) && n < |states|
    ensures TasksOwned(states[n])
  {
    InvHoldsOverEveryRun(states, steps);
    assert Inv(states[n]);
  }

  /** A sender is owned exactly when one was played, started or not, and no stop has begun since. */
  lemma SenderExactlyWhen(states: seq<State>, steps: seq<Step>, n: nat)
    requires Run(states, steps) && n < |states|
    ensures states[n].sender <==> exists p: nat :: PlayedSince(steps, p, n)
  {
    var flags := seq(|states|, i requires 0 <= i < |states| => states[i].sender);
    var ups := seq(|steps|, i requires 0 <= i < |steps| => steps[i].Do? && steps[i].act.Play?);
    var downs := seq(|steps|, i requires 0 <= i < |steps| => Does(steps[i], AudioStart));
    forall i, k | 0 <= i < |ups| && k == i + 1
      ensures flags[k] == (ups[i] || (flags[i] && !downs[i]))
    {
      assert Next(states[i], steps[i]) == Some(states[i + 1]);
      TasksOwnedAt(states, steps, i);
      SenderStep(states[i], steps[i], states[i + 1]);
    }
    UpExactlyWhen(flags, ups, downs, n);
    forall p: nat
      ensures UpSince(ups, downs, p, n) <==> PlayedSince(steps, p, n)
    {
      assert p < n ==> ups[p] == (steps[p].Do? && steps[p].act.Play?);
      assert forall j :: p < j < n ==> downs[j] == Does(steps[j], AudioStart);
    }
  }

  // ---------------------------------------------------------------- every operation can complete

  /** Some steps lead from one state to the other. */
  ghost predicate Leads(states: seq<State>, steps: seq<Step>, s: State, s': State) {
    && |states| == |steps| + 1 && states[0] == s && states[|steps|] == s'
    && forall i :: 0 <= i < |steps| ==> Next(states[i], steps[i]) == Some(states[i + 1])
  }

  ghost predicate Reaches(s: State, s': State) {
    exists states, steps :: Leads(states, steps, s, s')
  }

  lemma ReachesSelf(s: State)
    ensures Reaches(s, s)
  {
    assert Leads([s], [], s, s);
  }

  lemma ReachesNext(s: State, s1: State, step: Step, s2: State)
    requires Reaches(s, s1) && Next(s1, step) == Some(s2)
    ensures Reaches(s, s2)
  {
    var states, steps :| Leads(states, steps, s, s1);
    assert Leads(states + [s2], steps + [step], s, s2);
  }

  /** One act of operation `id`, with all that it changes. */
  lemma Perform(s0: State, s: State, id: nat, act: Act) returns (s': State)
    requires Reaches(s0, s) && id in s.ops && NextPhase(s, s.ops[id], act).Some?
    ensures Act1(s, id, act) == Some(s') && Reaches(s0, s')
  {
    s' := Act1(s, id, act).value;
    ReachesNext(s0, s, Do(id, act), s');
  }

  /** From a free gate, an explicit attempt, or a retry that is not declined, can take the gate and pass its start check. */
  lemma AttemptCanStart(s: State, id: nat) returns (s': State)
    requires id in s.ops && s.ops[id].phase.New? && s.gate.None?
    requires Explicit(s.ops[id].kind) || (s.ops[id].kind.Retry? && !s.intentional)
    ensures Reaches(s, s') && id in s'.ops && s'.gate == Some(id) && !s'.intentional
    ensures s'.ops[id].kind == s.ops[id].kind && s'.ops[id].session == s.ops[id].session
    ensures s'.ops[id].phase == if s.ops[id].session then RunAudio else RunBegin
    ensures s'.sender == s.sender && s'.cleanup == s.cleanup && s'.close == s.close
  {
    ReachesSelf(s);
    var s1 := Perform(s, s, id, Subscribe);
    var s2 := Perform(s, s1, id, Acquire);
    var s3 := Perform(s, s2, id, Proceed);
    s' := Perform(s, s3, id, CheckRun);
  }

  /** The sender, if any, can be shut down and the cleanup joined. */
  lemma AudioCanSettle(s0: State, s: State, id: nat) returns (s': State)
    requires Reaches(s0, s) && id in s.ops && InAudio(s.ops[id].phase) && s.gate == Some(id)
    requires s.cleanup.NoTask? || !s.sender
    ensures Reaches(s0, s') && id in s'.ops && s'.ops[id] == s.ops[id].(phase := AfterAudio(s.ops[id]))
    ensures s'.cleanup.NoTask? && !s'.sender && s'.close == s.close && s'.intentional == s.intentional
    ensures s'.gate == if s'.ops[id].phase.Done? then None else Some(id)
  {
    var s1 := s;
    if s.cleanup.NoTask? && s.sender {
      s1 := Perform(s0, s, id, AudioStart);
    }
    var s2 := s1;
    if s1.cleanup.InFlight? {
      s2 := s1.(cleanup := Finished);
      ReachesNext(s0, s1, CleanupCompletes, s2);
    }
    s' := Perform(s0, s2, id, AudioDone);
  }

  /** The engine close can be started, if it is not under way, and joined. */
  lemma CloseCanFinish(s0: State, s: State, id: nat) returns (s': State)
    requires Reaches(s0, s) && id in s.ops && InClose(s.ops[id].phase) && s.gate == Some(id)
    ensures Reaches(s0, s') && id in s'.ops && s'.close.NoTask?
    ensures s'.ops[id] == s.ops[id].(phase := match s.ops[id].phase case FailClose => Finishing case DropClose => Done case _ => RunEngine)
    ensures s'.cleanup == s.cleanup && s'.sender == s.sender && s'.connected == s.connected && s'.intentional == s.intentional
    ensures s'.gate == if s'.ops[id].phase.Done? then None else Some(id)
  {
    var s1 := CloseCanComplete(s0, s, id);
    s' := Perform(s0, s1, id, CloseDone);
  }

  lemma CloseCanComplete(s0: State, s: State, id: nat) returns (s': State)
    requires Reaches(s0, s) && id in s.ops && InClose(s.ops[id].phase)
    ensures Reaches(s0, s') && s' == s.(close := Finished)
  {
    var s1 := s;
    if s.close.NoTask? {
      s1 := Perform(s0, s, id, CloseStart);
      assert s1.ops == s.ops && s1 == s.(close := InFlight);
    }
    s' := s.(close := Finished);
    if s1.close.InFlight? {
      ReachesNext(s0, s1, CloseCompletes, s');
    }
  }

  /** From a free gate, an explicit attempt, or a retry that is not declined, can connect and return, leaving the flag up. */
  lemma ConnectCanSucceed(s: State, id: nat) returns (s': State)
    requires id in s.ops && s.ops[id].phase.New? && s.gate.None? && TasksOwned(s)
    requires Explicit(s.ops[id].kind) || (s.ops[id].kind.Retry? && !s.intentional)
    ensures Reaches(s, s') && id in s'.ops && s'.ops[id].returned
    ensures s'.connected && s'.connectedBy == id && !s'.intentional && s'.gate.None?
  {
    var s1 := AttemptCanStart(s, id);
    if s.ops[id].session {
      s1 := AudioCanSettle(s, s1, id);
    }
    var s2 := Perform(s, s1, id, Begin);
    if s2.ops[id].phase.RunClose? {
      s2 := CloseCanFinish(s, s2, id);
    }
    s' := EngineCanConnect(s, s2, id);
  }

  lemma EngineCanConnect(s0: State, s: State, id: nat) returns (s': State)
    requires Reaches(s0, s) && id in s.ops && s.ops[id].phase.RunEngine? && s.gate == Some(id) && s.close.NoTask?
    ensures Reaches(s0, s') && id in s'.ops && s'.ops[id].returned
    ensures s'.connected && s'.connectedBy == id && s'.intentional == s.intentional && s'.gate.None?
  {
    var s1 := Perform(s0, s, id, EngineOk);
    if s1.ops[id].phase.RunValidate? {
      s1 := Perform(s0, s1, id, ValidateOk);
    }
    s' := Perform(s0, s1, id, Finish);
  }

  /** What failed or disconnects can stop its audio, roll back, close the engine and return, leaving the flag down. */
  lemma RollbackCanReturn(s0: State, s: State, id: nat) returns (s': State)
    requires Reaches(s0, s) && id in s.ops && s.gate == Some(id) && (s.cleanup.NoTask? || !s.sender)
    requires s.ops[id].phase == FailPhase(s.ops[id])
    ensures Reaches(s0, s') && id in s'.ops && s'.ops[id].returned
    ensures !s'.connected && s'.intentional == s.intentional && s'.gate.None?
  {
    var s1 := s;
    if s.ops[id].session {
      s1 := AudioCanSettle(s0, s, id);
    }
    s' := RolledBackCanReturn(s0, s1, id);
  }

  lemma RolledBackCanReturn(s0: State, s: State, id: nat) returns (s': State)
    requires Reaches(s0, s) && id in s.ops && s.gate == Some(id) && s.ops[id].phase.FailRoll?
    ensures Reaches(s0, s') && id in s'.ops && s'.ops[id].returned
    ensures !s'.connected && s'.intentional == s.intentional && s'.gate.None?
  {
    var s1 := Perform(s0, s, id, Roll);
    var s2 := CloseCanFinish(s0, s1, id);
    s' := Perform(s0, s2, id, Finish);
  }

  /** From a free gate a disconnect can complete, leaving the flag down and the intention recorded. */
  lemma DisconnectCanComplete(s: State, id: nat) returns (s': State)
    requires id in s.ops && s.ops[id].phase.New? && s.ops[id].kind.Disconnect? && s.gate.None? && TasksOwned(s)
    ensures Reaches(s, s') && id in s'.ops && s'.ops[id].returned && !s'.connected && s'.intentional && s'.gate.None?
  {
    ReachesSelf(s);
    var s1 := Perform(s, s, id, Request);
    var s2 := Perform(s, s1, id, Subscribe);
    var s3 := Perform(s, s2, id, Acquire);
    var s4 := Perform(s, s3, id, Proceed);
    s' := RollbackCanReturn(s, s4, id);
  }

  /** A running attempt that fails, or one whose start check finds it outdated, can return with the flag down. */
  lemma FailureCanReturn(s: State, id: nat) returns (s': State)
    requires TasksOwned(s) && id in s.ops && s.gate == Some(id)
    requires Running(s.ops[id].phase) || (s.ops[id].phase.Ready? && s.version != s.ops[id].seen)
    ensures Reaches(s, s') && id in s'.ops && s'.ops[id].returned && !s'.connected && s'.gate.None?
  {
    ReachesSelf(s);
    var s1 := Perform(s, s, id, if Running(s.ops[id].phase) then Fail else CheckRun);
    s' := RollbackCanReturn(s, s1, id);
  }

  /** From a free gate audio can be played, which leaves a sender, and stopped, which leaves none. */
  lemma AudioCanPlayOrStop(s: State, id: nat) returns (s': State)
    requires id in s.ops && s.ops[id].phase.New? && IsAudio(s.ops[id].kind) && s.gate.None? && TasksOwned(s)
    ensures Reaches(s, s') && id in s'.ops && s'.ops[id].returned && s'.gate.None?
    ensures s'.sender == s.ops[id].kind.PlayAudio? && s'.cleanup.NoTask?
  {
    var s1 := AudioCanTakeGate(s, id);
    var s2 := AudioCanSettle(s, s1, id);
    s' := SettledAudioCanReturn(s, s2, id);
  }

  lemma SettledAudioCanReturn(s0: State, s: State, id: nat) returns (s': State)
    requires Reaches(s0, s) && id in s.ops && s.gate == Some(id) && s.cleanup.NoTask? && !s.sender
    requires s.ops[id].phase == if s.ops[id].kind.PlayAudio? then AudioPlay else Finishing
    ensures Reaches(s0, s') && id in s'.ops && s'.ops[id].returned && s'.gate.None?
    ensures s'.sender == s.ops[id].kind.PlayAudio? && s'.cleanup.NoTask?
  {
    var s1 := s;
    if s.ops[id].phase.AudioPlay? {
      s1 := Perform(s0, s, id, Play(true));
    }
    s' := Perform(s0, s1, id, Finish);
  }

  lemma AudioCanTakeGate(s: State, id: nat) returns (s': State)
    requires id in s.ops && s.ops[id].phase.New? && IsAudio(s.ops[id].kind) && s.gate.None?
    ensures Reaches(s, s') && id in s'.ops && s'.gate == Some(id) && s'.ops[id] == s.ops[id].(phase := AudioStop)
    ensures s'.cleanup == s.cleanup && s'.sender == s.sender
  {
    ReachesSelf(s);
    var s1 := Perform(s, s, id, Acquire);
    s' := Perform(s, s1, id, Proceed);
  }

  lemma DroppedCanDrain(s0: State, s: State, id: nat) returns (s': State)
    requires Reaches(s0, s) && id in s.ops && s.gate == Some(id) && (s.cleanup.NoTask? || !s.sender) && Dropping(s.ops[id].phase)
    ensures Reaches(s0, s') && s'.gate.None?
  {
    s' := s;
    if !s.ops[id].phase.DropClose? {
      s' := AudioCanSettle(s0, s, id);
    }
    if s'.gate.Some? {
      s' := CloseCanFinish(s0, s', id);
    }
  }

  /** In every state of every run the gate can be freed: whoever owns it can return, or be dropped and drain. */
  lemma GateCanAlwaysBeFreed(states: seq<State>, steps: seq<Step>, n: nat) returns (s': State)
    requires Run(states, steps) && n < |states|
    ensures Reaches(states[n], s') && s'.gate.None?
  {
    InvHoldsOverEveryRun(states, steps);
    assert Exclusive(states[n]) && TasksOwned(states[n]);
    s' := HeldGateCanBeFreed(states[n]);
  }

  lemma HeldGateCanBeFreed(s: State) returns (s': State)
    requires Exclusive(s) && TasksOwned(s)
    ensures Reaches(s, s') && s'.gate.None?
  {
    ReachesSelf(s);
    s' := s;
    if s.gate.Some? {
      var id := s.gate.value;
      if s.ops[id].phase.Finishing? {
        s' := Perform(s, s, id, Finish);
      } else if Dropping(s.ops[id].phase) {
        s' := DroppedCanDrain(s, s, id);
      } else {
        assert HoldsGate(s.ops[id].phase);
        var s1 := Perform(s, s, id, Cancel);
        s' := DroppedCanDrain(s, s1, id);
      }
    }
  }

  /** A sender that could not be started is shut down, and a source that is refused never becomes one, before the call returns. */
  lemma UnplayedAudioCanReturn(s: State, id: nat, refused: bool) returns (s': State)
    requires id in s.ops && s.ops[id].phase.AudioPlay? && s.gate == Some(id) && s.cleanup.NoTask? && !s.sender
    ensures Reaches(s, s') && id in s'.ops && s'.ops[id].returned && s'.gate.None? && !s'.sender && s'.cleanup.NoTask?
  {
    ReachesSelf(s);
    var s1 := Perform(s, s, id, if refused then PlayRefused else Play(false));
    if !refused {
      s1 := AudioCanSettle(s, s1, id);
    }
    s' := Perform(s, s1, id, Finish);
  }

  ghost predicate Closed(steps: seq<Step>, b: nat, n: nat, x: nat) {
    exists c :: b < c < n <= |steps| && steps[c] == Do(x, CloseDone)
  }

  /** An attempt that begins as a connect turns to the engine at once; any other joins an engine close first. */
  lemma ReconnectClosesFirst(states: seq<State>, steps: seq<Step>, b: nat, e: nat, x: nat)
    requires Run(states, steps) && b < e < |steps| && steps[b] == Do(x, Begin) && steps[e] == Do(x, EngineOk)
    ensures x in states[b].ops && x in states[b + 1].ops
    ensures states[b].ops[x].kind.Connect? ==> states[b + 1].ops[x].phase.RunEngine?
    ensures !states[b].ops[x].kind.Connect? ==> Closed(steps, b, e, x)
  {
    assert Next(states[b], steps[b]) == Some(states[b + 1]);
    if !states[b].ops[x].kind.Connect? {
      for j := b + 1 to e
        invariant x in states[j].ops
        invariant states[j].ops[x].phase.RunClose? || PastRun(states[j].ops[x].phase) || Closed(steps, b, j, x)
      {
        assert Next(states[j], steps[j]) == Some(states[j + 1]);
        ClosingStep(states[j], steps[j], states[j + 1], x);
        if steps[j] == Do(x, CloseDone) {
          assert Closed(steps, b, j + 1, x);
        } else if Closed(steps, b, j, x) {
          var c :| b < c < j && steps[c] == Do(x, CloseDone);
          assert Closed(steps, b, j + 1, x);
        }
      }
      assert Next(states[e], steps[e]) == Some(states[e + 1]);
    }
  }

  /** Phases from which an attempt never runs again. */
  predicate PastRun(p: Phase) { Failing(p) || Dropping(p) || p.Finishing? || p.Done? }

  lemma ClosingStep(s: State, step: Step, s': State, x: nat)
    requires Next(s, step) == Some(s') && x in s.ops
    ensures x in s'.ops
    ensures s.ops[x].phase.RunClose? && step != Do(x, CloseDone) ==> s'.ops[x].phase.RunClose? || PastRun(s'.ops[x].phase)
    ensures PastRun(s.ops[x].phase) ==> PastRun(s'.ops[x].phase)
  {
    if step.Do? {
      ActShape(s, step.op, step.act, s');
    }
  }

  /** An operation can be called at any time; only a session has audio operations. */
  lemma OperationCanBeCreated(s: State, id: nat, kind: Kind, session: bool)
    ensures Next(s, Create(id, kind, session)).Some? <==> id !in s.ops && (session || (!kind.PlayAudio? && !kind.StopAudio?))
    ensures Next(s, Create(id, kind, session)).Some? ==>
              var s' := Next(s, Create(id, kind, session)).value;
              && s' == s.(ops := s'.ops) && id in s'.ops && s'.ops == s.ops[id := s'.ops[id]]
              && s'.ops[id].kind == kind && s'.ops[id].session == session && s'.ops[id].phase.New? && !s'.ops[id].returned
  {
  }
}
