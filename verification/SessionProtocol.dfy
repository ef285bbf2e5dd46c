/**
 Session generations across the peer handlers, the engine's fault slot, the router, the LiDAR workers and the callback
 channel. The router's session id is the callback channel's current generation, so one bump invalidates queued ingress,
 decode jobs and callbacks together. Each step is one atomic section: what one lock or one atomic access covers.
 */
module SessionProtocol {
  import opened Common

  // ---------------------------------------------------------------- the engine's fault slot

  datatype Payload =
    | Data(item: nat)
    | Validation
    | TransportFault

  /** An ingress message stamped with a generation; `peer` is the peer connection it came through. */
  datatype Message = Message(generation: nat, payload: Payload, peer: nat)

  datatype Slot = Slot(ingress: nat, fault: Option<Message>)

  function Recorded(slot: Slot, generation: nat, peer: nat): Slot {
    if generation != slot.ingress then slot
    else slot.(fault := Some(Message(generation, TransportFault, peer)))
  }

  function Installed(generation: nat): Slot {
    Slot(generation, None)
  }

  datatype ReadyState = Closed | Connecting | Open | Disconnected | Failed

  /** The three operations that share the fault lock. */
  class FaultSlot {
    var ready: ReadyState
    var ingress: nat
    var fault: Option<Message>
    var incoming: seq<Message>
    const capacity: nat

    function Abs(): Slot
      reads this
    {
      Slot(ingress, fault)
    }

    constructor (capacity: nat)
      ensures Abs() == Slot(0, None) && ready == Closed && incoming == [] && this.capacity == capacity
    {
      ingress, fault, incoming, ready := 0, None, [], Closed;
      this.capacity := capacity;
    }

    /** The slot keeps a fault of the current generation even when the queue has no room for it. */
    method RecordTransportFault(generation: nat, peer: nat)
      modifies this
      ensures Abs() == Recorded(old(Abs()), generation, peer)
      ensures generation == ingress ==> fault.Some? && fault.value.generation == generation
      ensures ready == if generation == ingress then Closed else old(ready)
      ensures incoming == if generation == ingress && |old(incoming)| < capacity
                          then old(incoming) + [Message(generation, TransportFault, peer)] else old(incoming)
    {
      if generation != ingress {
        return;
      }
      ready := Closed;
      var message := Message(generation, TransportFault, peer);
      fault := Some(message);
      if |incoming| < capacity {
        incoming := incoming + [message];
      }
    }

    method SetIngressGeneration(generation: nat)
      modifies this
      ensures Abs() == Installed(generation) && incoming == old(incoming)
      ensures ready == if generation == old(ingress) then old(ready) else Closed
    {
      fault := None;
      if ingress != generation {
        ready := Closed;
      }
      ingress := generation;
    }

    method TakeTransportError() returns (message: Option<Message>)
      modifies this
      ensures message == old(fault) && Abs() == old(Abs()).(fault := None)
      ensures incoming == old(incoming) && ready == old(ready)
    {
      message := fault;
      fault := None;
    }
  }

  // ---------------------------------------------------------------- the system

  /** An event or a decode job: work stamped with the session in which its message was routed. */
  datatype Work = Work(generation: nat, message: Message)

  /** A bump of the session in progress under the lifecycle lock; `attempt` is the connect that asked for it, if any. */
  datatype Lifecycle = Free | Bumped(attempt: Option<nat>) | Set(attempt: Option<nat>)

  /** A connect attempt: `gate` is the session when it took the gate. */
  datatype Attempt =
    | Gated(gate: nat)
    | Resetting(gate: nat)
    | Prepared(gate: nat)
    | Succeeded(gate: nat, validation: Message)

  datatype Delivered = Delivered(event: Work, session: nat)

  /**
   Messages on their way in. `arriving`: handlers between their generation check and the enqueue. `router`: the message
   the router has taken but not processed.
   */
  datatype Ingress = Ingress(arriving: map<nat, Message>, queue: seq<Message>, router: Option<Message>)

  /**
   Work on its way out. `decoding`: workers past their generation check. `pushing`: callback senders between the last
   check and the enqueue. The receiver may take any queued event next, which covers two queues and their priority.
   */
  datatype Egress = Egress(jobs: seq<Work>, decoding: map<nat, Work>, pushing: map<nat, Work>, events: seq<Work>)

  /** The validation flag, the message that set it last, and the connect attempts that wait for it. */
  datatype Connects = Connects(validated: bool, validation: Option<Message>, attempts: map<nat, Attempt>)

  /** `delivered` and `faultResets` are histories: what the receiver returned, and whose faults reset a session. */
  datatype State = State(
    session: nat,
    lifecycle: Lifecycle,
    slot: Slot,
    peers: map<nat, nat>,
    ingress: Ingress,
    egress: Egress,
    connects: Connects,
    delivered: seq<Delivered>,
    faultResets: seq<nat>)

  function Initial(session: nat): State {
    State(session, Free, Slot(0, None), map[], Ingress(map[], [], None), Egress([], map[], map[], []),
          Connects(false, None, map[]), [], [])
  }

  datatype Route = Ignore | Topic | Lidar

  datatype Step =
    | BindPeer(peer: nat)
    | PeerCheck(thread: nat, peer: nat, payload: Payload)
    | PeerEnqueue(thread: nat, accepted: bool)
    | RecordFault(peer: nat, accepted: bool)
    | TakeFault
    | TakeMessage
    | Process(route: Route)
    | ResetBegin(requester: Option<nat>)
    | SetIngress
    | ResetEnd
    | PrepareIngress
    | ClearOpened
    | TakeJob(worker: nat)
    | WorkerCheck(worker: nat)
    | MediaCheck(thread: nat, peer: nat, item: nat)
    | PushEvent(thread: nat, accepted: bool)
    | Deliver(at: nat)
    | TakeGate(attempt: nat)
    | Poll(attempt: nat)

  // ---------------------------------------------------------------- transitions

  function NextIngress(s: State, step: Step): Option<Ingress> {
    var i := s.ingress;
    match step
    case PeerCheck(t, p, payload) =>
      if t in i.arriving || p !in s.peers || payload.TransportFault? || s.peers[p] != s.slot.ingress then None
      else Some(i.(arriving := i.arriving[t := Message(s.peers[p], payload, p)]))
    case PeerEnqueue(t, accepted) =>
      if t !in i.arriving then None
      else Some(i.(arriving := i.arriving - {t}, queue := if accepted then i.queue + [i.arriving[t]] else i.queue))
    case RecordFault(p, accepted) =>
      if p !in s.peers then None
      else if !accepted || s.peers[p] != s.slot.ingress then Some(i)
      else Some(i.(queue := i.queue + [Message(s.peers[p], TransportFault, p)]))
    case TakeFault => if i.router.Some? then None else Some(i.(router := s.slot.fault))
    case TakeMessage =>
      if i.router.Some? || i.queue == [] then None else Some(i.(router := Some(i.queue[0]), queue := i.queue[1..]))
    case Process(_) => if i.router.None? || !s.lifecycle.Free? then None else Some(i.(router := None))
    case _ => Some(i)
  }

  /** The router acts on a message only under the lifecycle lock and only in the message's own session. */
  predicate Acts(s: State, payload: Payload) {
    s.ingress.router.Some? && s.ingress.router.value.generation == s.session && s.ingress.router.value.payload == payload
  }

  predicate ActsOnData(s: State) {
    s.ingress.router.Some? && s.ingress.router.value.generation == s.session && s.ingress.router.value.payload.Data?
  }

  function NextEgress(s: State, step: Step): Option<Egress> {
    var e := s.egress;
    match step
    case Process(route) =>
      if !ActsOnData(s) || route.Ignore? then Some(e)
      else
        var w := Work(s.session, s.ingress.router.value);
        Some(if route.Topic? then e.(events := e.events + [w]) else e.(jobs := e.jobs + [w]))
    case TakeJob(w) =>
      if w in e.decoding || e.jobs == [] then None
      else if e.jobs[0].generation != s.session then Some(e.(jobs := e.jobs[1..]))
      else Some(e.(jobs := e.jobs[1..], decoding := e.decoding[w := e.jobs[0]]))
    case WorkerCheck(w) =>
      if w !in e.decoding || w in e.pushing then None
      else if e.decoding[w].generation != s.session then Some(e.(decoding := e.decoding - {w}))
      else Some(e.(decoding := e.decoding - {w}, pushing := e.pushing[w := e.decoding[w]]))
    case MediaCheck(t, p, item) =>
      if t in e.pushing || p !in s.peers || s.peers[p] != s.session then None
      else Some(e.(pushing := e.pushing[t := Work(s.peers[p], Message(s.peers[p], Data(item), p))]))
    case PushEvent(t, accepted) =>
      if t !in e.pushing then None
      else Some(e.(pushing := e.pushing - {t}, events := if accepted then e.events + [e.pushing[t]] else e.events))
    case Deliver(k) => if k >= |e.events| then None else Some(e.(events := e.events[..k] + e.events[k + 1..]))
    case _ => Some(e)
  }

  function NextConnects(s: State, step: Step): Option<Connects> {
    var c := s.connects;
    match step
    case Process(_) =>
      if Acts(s, Validation) then Some(c.(validated := true, validation := s.ingress.router)) else Some(c)
    case ResetBegin(r) =>
      if r.None? then Some(c)
      else if r.value !in c.attempts || !c.attempts[r.value].Gated? then None
      else Some(c.(attempts := c.attempts[r.value := Resetting(c.attempts[r.value].gate)]))
    case ResetEnd =>
      var c1 := c.(validated := false);
      if s.lifecycle.Set? && s.lifecycle.attempt.Some? && s.lifecycle.attempt.value in c.attempts
      then Some(c1.(attempts := c.attempts[s.lifecycle.attempt.value := Prepared(c.attempts[s.lifecycle.attempt.value].gate)]))
      else Some(c1)
    case ClearOpened => Some(c.(validated := false))
    case TakeGate(a) =>
      if a in c.attempts then None else Some(c.(attempts := c.attempts[a := Gated(s.session)]))
    case Poll(a) =>
      if a !in c.attempts || !c.attempts[a].Prepared? || !c.validated || c.validation.None? then None
      else Some(c.(attempts := c.attempts[a := Succeeded(c.attempts[a].gate, c.validation.value)]))
    case _ => Some(c)
  }

  function NextSlot(s: State, step: Step): Slot {
    match step
    case RecordFault(p, _) => if p in s.peers then Recorded(s.slot, s.peers[p], p) else s.slot
    case TakeFault => s.slot.(fault := None)
    case SetIngress => Installed(s.session)
    case PrepareIngress => Installed(s.session)
    case _ => s.slot
  }

  predicate FaultProcessed(s: State, step: Step) {
    step.Process? && Acts(s, TransportFault)
  }

  function NextLifecycle(s: State, step: Step): Option<Lifecycle> {
    match step
    case Process(_) => if FaultProcessed(s, step) then Some(Bumped(None)) else Some(s.lifecycle)
    case ResetBegin(r) => if s.lifecycle.Free? then Some(Bumped(r)) else None
    case SetIngress => if s.lifecycle.Bumped? then Some(Set(s.lifecycle.attempt)) else None
    case ResetEnd => if s.lifecycle.Set? then Some(Free) else None
    case PrepareIngress => if s.lifecycle.Free? then Some(Free) else None
    case _ => Some(s.lifecycle)
  }

  function Next(s: State, step: Step): Option<State> {
    var ingress, egress, connects, lifecycle :=
      NextIngress(s, step), NextEgress(s, step), NextConnects(s, step), NextLifecycle(s, step);
    if ingress.None? || egress.None? || connects.None? || lifecycle.None? then None
    else if step.BindPeer? && step.peer in s.peers then None
    else Some(State(
      if step.ResetBegin? || FaultProcessed(s, step) then s.session + 1 else s.session,
      lifecycle.value,
      NextSlot(s, step),
      if step.BindPeer? then s.peers[step.peer := s.slot.ingress] else s.peers,
      ingress.value, egress.value, connects.value,
      if step.Deliver? && step.at < |s.egress.events| && s.egress.events[step.at].generation == s.session
      then s.delivered + [Delivered(s.egress.events[step.at], s.session)] else s.delivered,
      if FaultProcessed(s, step) then s.faultResets + [s.ingress.router.value.generation] else s.faultResets))
  }

  ghost predicate Run(states: seq<State>, steps: seq<Step>) {
    && |states| == |steps| + 1
    && states[0] == Initial(states[0].session)
    && forall i :: 0 <= i < |steps| ==> Next(states[i], steps[i]) == Some(states[i + 1])
  }

  // ---------------------------------------------------------------- invariant

  /** The message carries the generation its peer connection was bound to. */
  predicate Stamped(peers: map<nat, nat>, m: Message) {
    m.peer in peers && peers[m.peer] == m.generation
  }

  predicate StampedWork(peers: map<nat, nat>, w: Work) {
    Stamped(peers, w.message) && w.generation == w.message.generation
  }

  ghost predicate IngressStamped(peers: map<nat, nat>, i: Ingress) {
    && (forall t :: t in i.arriving ==> Stamped(peers, i.arriving[t]))
    && (forall k :: 0 <= k < |i.queue| ==> Stamped(peers, i.queue[k]))
    && (i.router.Some? ==> Stamped(peers, i.router.value))
  }

  ghost predicate SlotStamped(peers: map<nat, nat>, slot: Slot) {
    slot.fault.Some? ==> Stamped(peers, slot.fault.value) && slot.fault.value.generation == slot.ingress
  }

  ghost predicate EgressStamped(peers: map<nat, nat>, e: Egress) {
    && (forall k :: 0 <= k < |e.jobs| ==> StampedWork(peers, e.jobs[k]))
    && (forall w :: w in e.decoding ==> StampedWork(peers, e.decoding[w]))
    && (forall t :: t in e.pushing ==> StampedWork(peers, e.pushing[t]))
    && (forall k :: 0 <= k < |e.events| ==> StampedWork(peers, e.events[k]))
  }

  ghost predicate DeliveredCurrent(peers: map<nat, nat>, delivered: seq<Delivered>) {
    forall i :: 0 <= i < |delivered| ==>
      StampedWork(peers, delivered[i].event) && delivered[i].session == delivered[i].event.generation
  }

  ghost predicate FaultsOnce(session: nat, resets: seq<nat>) {
    && (forall i, j :: 0 <= i < j < |resets| ==> resets[i] < resets[j])
    && (forall i :: 0 <= i < |resets| ==> resets[i] < session)
  }

  /** A connect past its reset only ever sees a validation flag set under a later session than the one it began in. */
  ghost predicate AttemptFresh(session: nat, c: Connects, a: Attempt) {
    match a
    case Gated(g) => g <= session
    case Resetting(g) => g < session
    case Prepared(g) => g < session && (c.validated ==> c.validation.Some? && g < c.validation.value.generation)
    case Succeeded(g, m) => g < m.generation
  }

  ghost predicate AttemptsFresh(session: nat, lifecycle: Lifecycle, c: Connects) {
    && (forall a :: a in c.attempts ==> AttemptFresh(session, c, c.attempts[a]))
    && (!lifecycle.Free? && lifecycle.attempt.Some? ==>
          lifecycle.attempt.value in c.attempts && c.attempts[lifecycle.attempt.value].Resetting?)
  }

  ghost predicate ValidationStamped(peers: map<nat, nat>, c: Connects) {
    && (c.validation.Some? ==> Stamped(peers, c.validation.value))
    && forall a :: a in c.attempts && c.attempts[a].Succeeded? ==> Stamped(peers, c.attempts[a].validation)
  }

  ghost predicate Inv(s: State) {
    && IngressStamped(s.peers, s.ingress) && SlotStamped(s.peers, s.slot) && EgressStamped(s.peers, s.egress)
    && DeliveredCurrent(s.peers, s.delivered) && FaultsOnce(s.session, s.faultResets)
    && AttemptsFresh(s.session, s.lifecycle, s.connects) && ValidationStamped(s.peers, s.connects)
    && IngressFollows(s)
  }

  /** The transport's generation never runs ahead of the session and is behind it while a bump is half done. */
  ghost predicate IngressFollows(s: State) {
    s.slot.ingress <= s.session && (s.lifecycle.Bumped? ==> s.slot.ingress < s.session)
  }

  lemma StepKeepsIngressFollows(s: State, step: Step, s': State)
    requires IngressFollows(s) && Next(s, step) == Some(s')
    ensures IngressFollows(s')
  {
  }

  lemma PeersGrow(s: State, step: Step, s': State)
    requires Next(s, step) == Some(s')
    ensures forall p :: p in s.peers ==> p in s'.peers && s'.peers[p] == s.peers[p]
    ensures s.session <= s'.session
  {
  }

  lemma StepKeepsIngress(s: State, step: Step, s': State)
    requires IngressStamped(s.peers, s.ingress) && SlotStamped(s.peers, s.slot) && Next(s, step) == Some(s')
    ensures IngressStamped(s'.peers, s'.ingress)
  {
    PeersGrow(s, step, s');
    assert NextIngress(s, step) == Some(s'.ingress);
  }

  lemma StepKeepsSlot(s: State, step: Step, s': State)
    requires SlotStamped(s.peers, s.slot) && Next(s, step) == Some(s')
    ensures SlotStamped(s'.peers, s'.slot)
  {
    PeersGrow(s, step, s');
    assert NextSlot(s, step) == s'.slot;
  }

  lemma StepKeepsEgress(s: State, step: Step, s': State)
    requires IngressStamped(s.peers, s.ingress) && EgressStamped(s.peers, s.egress) && Next(s, step) == Some(s')
    ensures EgressStamped(s'.peers, s'.egress)
  {
    PeersGrow(s, step, s');
    assert NextEgress(s, step) == Some(s'.egress);
  }

  lemma StepKeepsHistories(s: State, step: Step, s': State)
    requires EgressStamped(s.peers, s.egress) && DeliveredCurrent(s.peers, s.delivered)
    requires FaultsOnce(s.session, s.faultResets) && Next(s, step) == Some(s')
    ensures DeliveredCurrent(s'.peers, s'.delivered) && FaultsOnce(s'.session, s'.faultResets)
  {
    PeersGrow(s, step, s');
  }

  lemma StepKeepsAttempts(s: State, step: Step, s': State)
    requires AttemptsFresh(s.session, s.lifecycle, s.connects) && Next(s, step) == Some(s')
    ensures AttemptsFresh(s'.session, s'.lifecycle, s'.connects)
  {
    assert NextConnects(s, step) == Some(s'.connects) && NextLifecycle(s, step) == Some(s'.lifecycle);
  }

  lemma StepKeepsValidation(s: State, step: Step, s': State)
    requires IngressStamped(s.peers, s.ingress) && ValidationStamped(s.peers, s.connects) && Next(s, step) == Some(s')
    ensures ValidationStamped(s'.peers, s'.connects)
  {
    PeersGrow(s, step, s');
    assert NextConnects(s, step) == Some(s'.connects);
  }

  lemma StepKeepsInv(s: State, step: Step, s': State)
    requires Inv(s) && Next(s, step) == Some(s')
    ensures Inv(s')
  {
    StepKeepsIngress(s, step, s');
    StepKeepsSlot(s, step, s');
    StepKeepsEgress(s, step, s');
    StepKeepsHistories(s, step, s');
    StepKeepsAttempts(s, step, s');
    StepKeepsValidation(s, step, s');
    StepKeepsIngressFollows(s, step, s');
  }

  lemma InvHoldsOverEveryRun(states: seq<State>, steps: seq<Step>)
    requires Run(states, steps)
    ensures forall n :: 0 <= n < |states| ==> Inv(states[n])
  {
    for n := 0 to |steps|
      invariant forall i :: 0 <= i <= n ==> Inv(states[i])
    {
      StepKeepsInv(states[n], steps[n], states[n + 1]);
    }
  }

  // ---------------------------------------------------------------- no session's data surfaces in a later session

  lemma RunIsMonotone(states: seq<State>, steps: seq<Step>, m: nat, n: nat)
    requires Run(states, steps) && m <= n < |states|
    ensures states[m].session <= states[n].session
    ensures forall p :: p in states[m].peers ==> p in states[n].peers && states[n].peers[p] == states[m].peers[p]
  {
    for k := m to n
      invariant states[m].session <= states[k].session
      invariant forall p :: p in states[m].peers ==> p in states[k].peers && states[k].peers[p] == states[m].peers[p]
    {
      PeersGrow(states[k], steps[k], states[k + 1]);
    }
  }

  /** Step `n` handed an event to the dispatcher. */
  ghost predicate Delivers(states: seq<State>, n: nat, event: Work)
    requires n + 1 < |states|
  {
    states[n + 1].delivered == states[n].delivered + [Delivered(event, states[n].session)]
  }

  /**
   In every interleaving of handlers, routing, resets, faults, decoding and receiving: an event the receiver returns is
   current at that moment and its message came through a peer connection bound in that very generation.
   */
  lemma DeliveredEventIsCurrent(states: seq<State>, steps: seq<Step>, n: nat, event: Work)
    requires Run(states, steps) && n < |steps| && Delivers(states, n, event)
    ensures event.generation == states[n].session == event.message.generation
    ensures event.message.peer in states[n].peers && states[n].peers[event.message.peer] == states[n].session
  {
    InvHoldsOverEveryRun(states, steps);
    var s, s' := states[n], states[n + 1];
    assert Inv(s) && Next(s, steps[n]) == Some(s');
    assert s'.delivered[|s.delivered|] == Delivered(event, s.session);
    assert EgressStamped(s.peers, s.egress);
    assert steps[n].Deliver? && event == s.egress.events[steps[n].at];
  }

  /** A peer bound while the transport was at generation `g` contributes events to session `g` and to no other. */
  lemma PeerDataStaysInItsSession(states: seq<State>, steps: seq<Step>, m: nat, n: nat, event: Work)
    requires Run(states, steps) && m < n < |steps|
    requires steps[m] == BindPeer(event.message.peer) && Delivers(states, n, event)
    ensures states[n].session == states[m].slot.ingress
  {
    DeliveredEventIsCurrent(states, steps, n, event);
    assert Next(states[m], steps[m]) == Some(states[m + 1]);
    RunIsMonotone(states, steps, m + 1, n);
  }

  // ---------------------------------------------------------------- transport faults

  /** A retained fault always carries the transport's current generation. */
  lemma RetainedFaultIsCurrent(states: seq<State>, steps: seq<Step>, n: nat)
    requires Run(states, steps) && n < |states| && states[n].slot.fault.Some?
    ensures states[n].slot.fault.value.generation == states[n].slot.ingress <= states[n].session
  {
    InvHoldsOverEveryRun(states, steps);
    assert Inv(states[n]);
  }

  /**
   A retained fault disappears in exactly three ways; the only one that neither hands it to the router nor moves the
   transport to another generation is preparing ingress again in the session the transport is already in.
   */
  lemma FaultLostExactlyWhen(states: seq<State>, steps: seq<Step>, n: nat)
    requires Run(states, steps) && n < |steps| && states[n].slot.fault.Some?
    ensures states[n + 1].slot.fault.None? <==> steps[n].TakeFault? || steps[n].SetIngress? || steps[n].PrepareIngress?
    ensures states[n + 1].slot.fault.None? && !steps[n].TakeFault? && states[n + 1].slot.ingress == states[n].slot.ingress
            <==> steps[n].PrepareIngress? && states[n].slot.ingress == states[n].session
  {
    InvHoldsOverEveryRun(states, steps);
    assert Inv(states[n]);
    assert IngressFollows(states[n]);
    assert Next(states[n], steps[n]) == Some(states[n + 1]);
  }

  /** The loss happens: the copy met a full queue, ingress is prepared again, and nothing is left to reset the session. */
  lemma PreparingIngressCanLoseAFault() returns (states: seq<State>, steps: seq<Step>)
    ensures Run(states, steps) && |states| == 5
    ensures states[3].slot.fault.Some? && states[3].slot.fault.value.generation == states[3].session
    ensures states[4].slot == Slot(states[3].slot.ingress, None)
    ensures states[4].session == states[0].session && states[4].ingress == Ingress(map[], [], None)
  {
    var s0 := Initial(7);
    var s1 := s0.(slot := Installed(7));
    var s2 := s1.(peers := map[0 := 7]);
    var s3 := s2.(slot := Slot(7, Some(Message(7, TransportFault, 0))));
    var s4 := s2;
    states, steps := [s0, s1, s2, s3, s4], [PrepareIngress, BindPeer(0), RecordFault(0, false), PrepareIngress];
    assert s1.peers[0 := 7] == map[0 := 7];
    assert Next(s0, steps[0]) == Some(s1) && Next(s1, steps[1]) == Some(s2);
    assert Next(s2, steps[2]) == Some(s3) && Next(s3, steps[3]) == Some(s4);
  }

  /** A fault seen through the slot and through the queue resets one session, whichever copy comes first. */
  lemma FaultResetsAtMostOneSession(states: seq<State>, steps: seq<Step>, m: nat, n: nat)
    requires Run(states, steps) && m < n < |steps|
    requires FaultProcessed(states[m], steps[m]) && FaultProcessed(states[n], steps[n])
    ensures states[m].ingress.router.value.generation < states[n].ingress.router.value.generation
    ensures states[m + 1].session == states[m].session + 1
  {
    assert Next(states[m], steps[m]) == Some(states[m + 1]);
    RunIsMonotone(states, steps, m + 1, n);
  }

  // ---------------------------------------------------------------- validation is fresh

  lemma GateIsRemembered(states: seq<State>, steps: seq<Step>, m: nat, n: nat, a: nat)
    requires Run(states, steps) && m < n < |states| && steps[m] == TakeGate(a)
    ensures a in states[n].connects.attempts && states[n].connects.attempts[a].gate == states[m].session
  {
    assert Next(states[m], steps[m]) == Some(states[m + 1]);
    for k := m + 1 to n
      invariant a in states[k].connects.attempts && states[k].connects.attempts[a].gate == states[m].session
    {
      assert Next(states[k], steps[k]) == Some(states[k + 1]);
      assert NextConnects(states[k], steps[k]) == Some(states[k + 1].connects);
    }
  }

  /** Step `k` processed this validation message, in the session the message belongs to. */
  ghost predicate Validates(states: seq<State>, steps: seq<Step>, k: nat, v: Message) {
    && k < |steps| < |states| && steps[k].Process? && states[k].ingress.router == Some(v)
    && v.payload == Validation && v.generation == states[k].session
  }

  lemma {:induction false} ValidationWasProcessed(states: seq<State>, steps: seq<Step>, n: nat) returns (k: nat)
    requires Run(states, steps) && n < |states| && states[n].connects.validation.Some?
    ensures k < n && Validates(states, steps, k, states[n].connects.validation.value)
  {
    assert n > 0;
    var m := n - 1;
    assert Next(states[m], steps[m]) == Some(states[m + 1]);
    assert NextConnects(states[m], steps[m]) == Some(states[n].connects);
    if steps[m].Process? && Acts(states[m], Validation) {
      k := m;
    } else {
      k := ValidationWasProcessed(states, steps, m);
    }
  }

  /**
   A connect that succeeds saw a validation that was processed after it took the gate, in a session begun after it took
   the gate, and that came through a peer bound in that session; an earlier session's validation never satisfies it.
   */
  lemma ConnectSawFreshValidation(states: seq<State>, steps: seq<Step>, m: nat, n: nat, a: nat) returns (k: nat)
    requires Run(states, steps) && m < n < |steps| && steps[m] == TakeGate(a) && steps[n] == Poll(a)
    ensures m < k < n && states[n].connects.validation.Some?
    ensures Validates(states, steps, k, states[n].connects.validation.value)
    ensures states[m].session < states[k].session
    ensures var v := states[n].connects.validation.value;
            v.peer in states[n].peers && states[n].peers[v.peer] == states[k].session
  {
    InvHoldsOverEveryRun(states, steps);
    assert Inv(states[n]) && Next(states[n], steps[n]) == Some(states[n + 1]);
    GateIsRemembered(states, steps, m, n, a);
    var c := states[n].connects;
    assert NextConnects(states[n], steps[n]).Some?;
    assert AttemptFresh(states[n].session, c, c.attempts[a]);
    k := ValidationWasProcessed(states, steps, n);
    if k <= m {
      RunIsMonotone(states, steps, k, m);
      assert false;
    }
  }

  // ---------------------------------------------------------------- nothing current is lost on the way in

  /** The message is with a handler, in the queue or with the router. */
  ghost predicate OnItsWay(i: Ingress, m: Message) {
    (exists t :: t in i.arriving && i.arriving[t] == m) || m in i.queue || i.router == Some(m)
  }

  /** The two ends of a message: a full queue, or the router processing it. */
  predicate EndsMessage(s: State, step: Step, m: Message) {
    || (step.PeerEnqueue? && !step.accepted && step.thread in s.ingress.arriving && s.ingress.arriving[step.thread] == m)
    || (step.Process? && s.ingress.router == Some(m))
  }

  lemma MessageStep(s: State, step: Step, s': State, m: Message)
    requires Next(s, step) == Some(s') && OnItsWay(s.ingress, m) && !EndsMessage(s, step, m)
    ensures OnItsWay(s'.ingress, m)
  {
    if step.PeerEnqueue? && step.accepted && step.thread in s.ingress.arriving && s.ingress.arriving[step.thread] == m {
      assert s'.ingress.queue[|s.ingress.queue|] == m;
    } else if m in s.ingress.queue {
      var k :| 0 <= k < |s.ingress.queue| && s.ingress.queue[k] == m;
      if step.TakeMessage? {
        assert k == 0 || s'.ingress.queue[k - 1] == m;
      } else {
        assert k < |s'.ingress.queue| && s'.ingress.queue[k] == m;
      }
    } else if s.ingress.router != Some(m) {
      var t :| t in s.ingress.arriving && s.ingress.arriving[t] == m;
      assert t in s'.ingress.arriving && s'.ingress.arriving[t] == m;
    }
  }

  ghost predicate MessageEnded(states: seq<State>, steps: seq<Step>, n: nat, k: nat, m: Message) {
    exists j :: n <= j < k && j < |steps| && j < |states| && EndsMessage(states[j], steps[j], m)
  }

  /** A message on its way stays on its way until the queue refuses it or the router processes it. */
  lemma MessageIsConserved(states: seq<State>, steps: seq<Step>, n: nat, k: nat, m: Message)
    requires Run(states, steps) && n <= k < |states| && OnItsWay(states[n].ingress, m)
    ensures OnItsWay(states[k].ingress, m) || MessageEnded(states, steps, n, k, m)
  {
    for j := n to k
      invariant OnItsWay(states[j].ingress, m) || MessageEnded(states, steps, n, j, m)
    {
      if OnItsWay(states[j].ingress, m) {
        if EndsMessage(states[j], steps[j], m) {
          assert MessageEnded(states, steps, n, j + 1, m);
        } else {
          MessageStep(states[j], steps[j], states[j + 1], m);
        }
      } else {
        var i :| n <= i < j && EndsMessage(states[i], steps[i], m);
        assert MessageEnded(states, steps, n, j + 1, m);
      }
    }
  }

  // ---------------------------------------------------------------- nor on the way out

  ghost predicate HasValue(m: map<nat, Work>, w: Work) {
    exists k :: k in m && m[k] == w
  }

  /** The work is a job, with a worker, with a sender or a queued event. */
  ghost predicate Underway(e: Egress, w: Work) {
    w in e.jobs || HasValue(e.decoding, w) || HasValue(e.pushing, w) || w in e.events
  }

  /** The ends of work: found outdated by a worker, refused by the callback budget, or taken by the receiver. */
  predicate EndsWork(s: State, step: Step, w: Work) {
    var e := s.egress;
    || (step.TakeJob? && e.jobs != [] && e.jobs[0] == w && w.generation != s.session)
    || (step.WorkerCheck? && step.worker in e.decoding && e.decoding[step.worker] == w && w.generation != s.session)
    || (step.PushEvent? && !step.accepted && step.thread in e.pushing && e.pushing[step.thread] == w)
    || (step.Deliver? && step.at < |e.events| && e.events[step.at] == w)
  }

  lemma JobStep(s: State, step: Step, s': State, w: Work)
    requires Next(s, step) == Some(s') && w in s.egress.jobs && !EndsWork(s, step, w)
    ensures Underway(s'.egress, w)
  {
    var k :| 0 <= k < |s.egress.jobs| && s.egress.jobs[k] == w;
    if step.TakeJob? {
      assert if k == 0 then s'.egress.decoding[step.worker] == w else s'.egress.jobs[k - 1] == w;
    } else {
      assert s'.egress.jobs[k] == w;
    }
  }

  lemma DecodingStep(s: State, step: Step, s': State, w: Work)
    requires Next(s, step) == Some(s') && HasValue(s.egress.decoding, w) && !EndsWork(s, step, w)
    ensures Underway(s'.egress, w)
  {
    var k :| k in s.egress.decoding && s.egress.decoding[k] == w;
    if step.WorkerCheck? && step.worker == k {
      assert s'.egress.pushing[k] == w;
    } else {
      assert k in s'.egress.decoding && s'.egress.decoding[k] == w;
    }
  }

  lemma PushingStep(s: State, step: Step, s': State, w: Work)
    requires Next(s, step) == Some(s') && HasValue(s.egress.pushing, w) && !EndsWork(s, step, w)
    ensures Underway(s'.egress, w)
  {
    var k :| k in s.egress.pushing && s.egress.pushing[k] == w;
    if step.PushEvent? && step.thread == k {
      assert s'.egress.events[|s.egress.events|] == w;
    } else {
      assert k in s'.egress.pushing && s'.egress.pushing[k] == w;
    }
  }

  lemma EventStep(s: State, step: Step, s': State, w: Work)
    requires Next(s, step) == Some(s') && w in s.egress.events
    requires step.Deliver? && step.at < |s.egress.events| ==> s.egress.events[step.at] != w
    ensures w in s'.egress.events
  {
    var k :| 0 <= k < |s.egress.events| && s.egress.events[k] == w;
    if step.Deliver? {
      assert if k < step.at then s'.egress.events[k] == w else s'.egress.events[k - 1] == w;
    } else {
      assert s'.egress.events[k] == w;
    }
  }

  lemma WorkStep(s: State, step: Step, s': State, w: Work)
    requires Next(s, step) == Some(s') && Underway(s.egress, w) && !EndsWork(s, step, w)
    ensures Underway(s'.egress, w)
  {
    if w in s.egress.jobs {
      JobStep(s, step, s', w);
    } else if HasValue(s.egress.decoding, w) {
      DecodingStep(s, step, s', w);
    } else if HasValue(s.egress.pushing, w) {
      PushingStep(s, step, s', w);
    } else {
      EventStep(s, step, s', w);
    }
  }

  ghost predicate WorkEnded(states: seq<State>, steps: seq<Step>, n: nat, k: nat, w: Work) {
    exists j :: n <= j < k && j < |steps| && j < |states| && EndsWork(states[j], steps[j], w)
  }

  /** Routed work stays underway until the receiver takes it, a budget refuses it, or a worker finds its session over. */
  lemma WorkIsConserved(states: seq<State>, steps: seq<Step>, n: nat, k: nat, w: Work)
    requires Run(states, steps) && n <= k < |states| && Underway(states[n].egress, w)
    ensures Underway(states[k].egress, w) || WorkEnded(states, steps, n, k, w)
  {
    for j := n to k
      invariant Underway(states[j].egress, w) || WorkEnded(states, steps, n, j, w)
    {
      if Underway(states[j].egress, w) {
        if EndsWork(states[j], steps[j], w) {
          assert WorkEnded(states, steps, n, j + 1, w);
        } else {
          WorkStep(states[j], steps[j], states[j + 1], w);
        }
      } else {
        var i :| n <= i < j && EndsWork(states[i], steps[i], w);
        assert WorkEnded(states, steps, n, j + 1, w);
      }
    }
  }

  /** A queued event stays queued until a receive takes it. */
  lemma QueuedEventWaits(states: seq<State>, steps: seq<Step>, n: nat, k: nat, w: Work)
    requires Run(states, steps) && n <= k < |states| && w in states[n].egress.events
    requires forall j :: n <= j < k && steps[j].Deliver? && steps[j].at < |states[j].egress.events| ==>
               states[j].egress.events[steps[j].at] != w
    ensures w in states[k].egress.events
  {
    for j := n to k
      invariant w in states[j].egress.events
    {
      EventStep(states[j], steps[j], states[j + 1], w);
    }
  }

  /** A receive hands over exactly the event it takes if that event is current, and nothing otherwise. */
  lemma TakenEventIsDelivered(states: seq<State>, steps: seq<Step>, n: nat)
    requires Run(states, steps) && n < |steps| && steps[n].Deliver?
    ensures steps[n].at < |states[n].egress.events|
    ensures var w := states[n].egress.events[steps[n].at];
            if w.generation == states[n].session then Delivers(states, n, w)
            else states[n + 1].delivered == states[n].delivered
    ensures |states[n + 1].egress.events| == |states[n].egress.events| - 1
  {
    assert Next(states[n], steps[n]) == Some(states[n + 1]);
  }

  /** Data of the current session becomes an event or a decode job, as routed; data of another session becomes nothing. */
  lemma RoutedDataGoesOut(states: seq<State>, steps: seq<Step>, n: nat, m: Message)
    requires Run(states, steps) && n < |steps| && steps[n].Process?
    requires states[n].ingress.router == Some(m) && m.payload.Data?
    ensures var e, e' := states[n].egress, states[n + 1].egress; var w := Work(states[n].session, m);
            && e'.decoding == e.decoding && e'.pushing == e.pushing
            && (m.generation == states[n].session && steps[n].route.Topic? ==> e'.events == e.events + [w] && e'.jobs == e.jobs)
            && (m.generation == states[n].session && steps[n].route.Lidar? ==> e'.jobs == e.jobs + [w] && e'.events == e.events)
            && (m.generation != states[n].session || steps[n].route.Ignore? ==> e' == e)
    ensures states[n + 1].ingress.router == None
  {
    assert Next(states[n], steps[n]) == Some(states[n + 1]);
    assert NextEgress(states[n], steps[n]) == Some(states[n + 1].egress);
  }

  /** Topic data routed in its session: the event waits, and the receive that takes it in that session returns it. */
  lemma TopicDataReachesReceiver(states: seq<State>, steps: seq<Step>, n: nat, k: nat, m: Message)
    requires Run(states, steps) && n < k < |steps| && steps[n] == Process(Topic)
    requires states[n].ingress.router == Some(m) && m.payload.Data? && m.generation == states[n].session
    requires forall j :: n < j < k && steps[j].Deliver? && steps[j].at < |states[j].egress.events| ==>
               states[j].egress.events[steps[j].at] != Work(m.generation, m)
    ensures Work(m.generation, m) in states[k].egress.events
    ensures (steps[k].Deliver? && steps[k].at < |states[k].egress.events| && states[k].session == m.generation
             && states[k].egress.events[steps[k].at] == Work(m.generation, m)) ==> Delivers(states, k, Work(m.generation, m))
  {
    RoutedDataGoesOut(states, steps, n, m);
    var e, e' := states[n].egress, states[n + 1].egress;
    assert e'.events[|e.events|] == Work(m.generation, m);
    QueuedEventWaits(states, steps, n + 1, k, Work(m.generation, m));
    if steps[k].Deliver? {
      TakenEventIsDelivered(states, steps, k);
    }
  }

  /** Work that is still current moves on at each stage of the decoding. */
  lemma CurrentWorkMovesOn(states: seq<State>, steps: seq<Step>, n: nat)
    requires Run(states, steps) && n < |steps|
    ensures steps[n].TakeJob? ==>
              && states[n].egress.jobs != [] && states[n + 1].egress.jobs == states[n].egress.jobs[1..]
              && (states[n].egress.jobs[0].generation == states[n].session ==>
                    steps[n].worker in states[n + 1].egress.decoding
                    && states[n + 1].egress.decoding[steps[n].worker] == states[n].egress.jobs[0])
    ensures steps[n].WorkerCheck? ==>
              && steps[n].worker in states[n].egress.decoding && steps[n].worker !in states[n + 1].egress.decoding
              && (states[n].egress.decoding[steps[n].worker].generation == states[n].session ==>
                    steps[n].worker in states[n + 1].egress.pushing
                    && states[n + 1].egress.pushing[steps[n].worker] == states[n].egress.decoding[steps[n].worker])
    ensures steps[n].PushEvent? && steps[n].accepted ==>
              && steps[n].thread in states[n].egress.pushing
              && states[n + 1].egress.events == states[n].egress.events + [states[n].egress.pushing[steps[n].thread]]
  {
    assert Next(states[n], steps[n]) == Some(states[n + 1]);
    assert NextEgress(states[n], steps[n]) == Some(states[n + 1].egress);
  }

  /** A peer is bound to the transport's generation, and its media go out under that generation while it is current. */
  lemma PeersCarryTheirGeneration(states: seq<State>, steps: seq<Step>, n: nat)
    requires Run(states, steps) && n < |steps|
    ensures steps[n].BindPeer? ==> states[n + 1].peers == states[n].peers[steps[n].peer := states[n].slot.ingress]
    ensures steps[n].MediaCheck? ==>
              && steps[n].peer in states[n].peers && states[n].peers[steps[n].peer] == states[n].session
              && steps[n].thread in states[n + 1].egress.pushing
              && states[n + 1].egress.pushing[steps[n].thread]
                 == Work(states[n].session, Message(states[n].session, Data(steps[n].item), steps[n].peer))
  {
    assert Next(states[n], steps[n]) == Some(states[n + 1]);
  }

  // ---------------------------------------------------------------- faults, resets and validations take effect

  /** A fault of the transport's generation is retained and, room permitting, queued; any other leaves no trace. */
  lemma RecordedFaultIsRetained(states: seq<State>, steps: seq<Step>, n: nat)
    requires Run(states, steps) && n < |steps| && steps[n].RecordFault?
    ensures var s, s', p := states[n], states[n + 1], steps[n].peer;
            && p in s.peers
            && (if s.peers[p] != s.slot.ingress then s'.slot == s.slot && s'.ingress == s.ingress
                else var m := Message(s.slot.ingress, TransportFault, p);
                     s'.slot == Slot(s.slot.ingress, Some(m))
                     && s'.ingress.queue == if steps[n].accepted then s.ingress.queue + [m] else s.ingress.queue)
  {
    assert Next(states[n], steps[n]) == Some(states[n + 1]);
  }

  /** The router takes the retained fault; a fault it processes in its own session starts a reset, any other nothing. */
  lemma TakenFaultResets(states: seq<State>, steps: seq<Step>, n: nat)
    requires Run(states, steps) && n < |steps|
    ensures steps[n].TakeFault? ==>
              states[n + 1].ingress.router == states[n].slot.fault && states[n + 1].slot == Slot(states[n].slot.ingress, None)
    ensures steps[n].Process? ==> states[n].ingress.router.Some?
    ensures steps[n].Process? && states[n].ingress.router.value.payload.TransportFault? ==>
              if states[n].ingress.router.value.generation == states[n].session
              then states[n + 1].session == states[n].session + 1 && states[n + 1].lifecycle == Bumped(None)
              else states[n + 1].session == states[n].session && states[n + 1].lifecycle == states[n].lifecycle
  {
    assert Next(states[n], steps[n]) == Some(states[n + 1]);
  }

  /** The session moves by one, exactly at the begin of a reset and at a fault of the current session. */
  lemma SessionMovesExactlyWhen(states: seq<State>, steps: seq<Step>, n: nat)
    requires Run(states, steps) && n < |steps|
    ensures states[n + 1].session != states[n].session <==>
              || steps[n].ResetBegin?
              || (steps[n].Process? && states[n].ingress.router.Some?
                  && states[n].ingress.router.value.payload.TransportFault?
                  && states[n].ingress.router.value.generation == states[n].session)
    ensures states[n + 1].session == states[n].session || states[n + 1].session == states[n].session + 1
  {
    assert Next(states[n], steps[n]) == Some(states[n + 1]);
  }

  /** A reset installs the new session in the transport and takes the validation back. */
  lemma ResetTakesEffect(states: seq<State>, steps: seq<Step>, n: nat)
    requires Run(states, steps) && n < |steps|
    ensures steps[n].SetIngress? || steps[n].PrepareIngress? ==> states[n + 1].slot == Slot(states[n].session, None)
    ensures steps[n].ResetBegin? ==> states[n + 1].lifecycle == Bumped(steps[n].requester)
    ensures steps[n].SetIngress? ==> states[n].lifecycle.Bumped? && states[n + 1].lifecycle == Set(states[n].lifecycle.attempt)
    ensures steps[n].ResetEnd? ==> !states[n + 1].connects.validated && states[n + 1].lifecycle.Free?
    ensures steps[n].ClearOpened? ==> !states[n + 1].connects.validated
  {
    assert Next(states[n], steps[n]) == Some(states[n + 1]);
  }

  /** A validation processed in its session is seen by a prepared connect for as long as nothing takes it back. */
  lemma ValidationIsSeen(states: seq<State>, steps: seq<Step>, n: nat, k: nat, m: Message, a: nat)
    requires Run(states, steps) && n < k < |states| && Validates(states, steps, n, m)
    requires forall j :: n < j < k ==> !steps[j].ResetEnd? && !steps[j].ClearOpened?
    requires a in states[k].connects.attempts && states[k].connects.attempts[a].Prepared?
    ensures Next(states[k], Poll(a)).Some?
    ensures Next(states[k], Poll(a)).value.connects.attempts[a].Succeeded?
  {
    assert Next(states[n], steps[n]) == Some(states[n + 1]);
    for j := n + 1 to k
      invariant states[j].connects.validated && states[j].connects.validation.Some?
    {
      assert Next(states[j], steps[j]) == Some(states[j + 1]);
      assert NextConnects(states[j], steps[j]) == Some(states[j + 1].connects);
    }
  }

  /** A reset that a connect asked for leaves that connect prepared. */
  lemma ResetPreparesItsConnect(states: seq<State>, steps: seq<Step>, n: nat)
    requires Run(states, steps) && n < |steps| && steps[n].ResetEnd?
    ensures states[n].lifecycle.Set?
    ensures states[n].lifecycle.attempt.Some? ==>
              states[n].lifecycle.attempt.value in states[n + 1].connects.attempts
              && states[n + 1].connects.attempts[states[n].lifecycle.attempt.value].Prepared?
  {
    InvHoldsOverEveryRun(states, steps);
    assert Inv(states[n]) && Next(states[n], steps[n]) == Some(states[n + 1]);
    assert AttemptsFresh(states[n].session, states[n].lifecycle, states[n].connects);
  }

  // ---------------------------------------------------------------- the whole way is open

  /** A message of a peer bound to the transport's generation can reach an idle router. */
  lemma PeerDataReachesRouter(s: State, t: nat, p: nat, payload: Payload) returns (s1: State, s2: State, s3: State)
    requires p in s.peers && s.peers[p] == s.slot.ingress && !payload.TransportFault?
    requires t !in s.ingress.arriving && s.ingress.queue == [] && s.ingress.router.None?
    ensures Next(s, PeerCheck(t, p, payload)) == Some(s1) && Next(s1, PeerEnqueue(t, true)) == Some(s2)
    ensures Next(s2, TakeMessage) == Some(s3)
    ensures s3 == s.(ingress := s.ingress.(router := Some(Message(s.slot.ingress, payload, p))))
  {
    var i, m := s.ingress, Message(s.slot.ingress, payload, p);
    s1 := s.(ingress := i.(arriving := i.arriving[t := m]));
    s2 := s.(ingress := i.(queue := [m]));
    s3 := s.(ingress := i.(router := Some(m)));
    assert i.arriving[t := m] - {t} == i.arriving && [] + [m] == [m] && [m][1..] == [];
    assert Next(s, PeerCheck(t, p, payload)) == Some(s1);
    assert Next(s1, PeerEnqueue(t, true)) == Some(s2);
  }

  /** From the router, topic data of the current session can be delivered in two steps. */
  lemma TopicDataCanBeDelivered(s: State, m: Message) returns (s1: State, s2: State)
    requires s.lifecycle.Free? && s.ingress.router == Some(m) && m.payload.Data? && m.generation == s.session
    ensures Next(s, Process(Topic)) == Some(s1) && Next(s1, Deliver(|s.egress.events|)) == Some(s2)
    ensures s2.delivered == s.delivered + [Delivered(Work(s.session, m), s.session)]
  {
    s1 := Next(s, Process(Topic)).value;
    assert s1.egress.events[|s.egress.events|] == Work(s.session, m);
    s2 := Next(s1, Deliver(|s.egress.events|)).value;
  }

  /** And so can LiDAR data, through a free worker. */
  lemma LidarDataCanBeDelivered(s: State, m: Message, w: nat)
    returns (s1: State, s2: State, s3: State, s4: State, s5: State)
    requires s.lifecycle.Free? && s.ingress.router == Some(m) && m.payload.Data? && m.generation == s.session
    requires s.egress.jobs == [] && w !in s.egress.decoding && w !in s.egress.pushing
    ensures Next(s, Process(Lidar)) == Some(s1) && Next(s1, TakeJob(w)) == Some(s2) && Next(s2, WorkerCheck(w)) == Some(s3)
    ensures Next(s3, PushEvent(w, true)) == Some(s4) && Next(s4, Deliver(|s.egress.events|)) == Some(s5)
    ensures s5.delivered == s.delivered + [Delivered(Work(s.session, m), s.session)]
  {
    s1 := Next(s, Process(Lidar)).value;
    s2, s3 := JobCanBeDecoded(s1, Work(s.session, m), w);
    s4, s5 := DecodedCanBeDelivered(s3, Work(s.session, m), w);
  }

  lemma JobCanBeDecoded(s: State, job: Work, w: nat) returns (s1: State, s2: State)
    requires s.egress.jobs == [job] && job.generation == s.session && w !in s.egress.decoding && w !in s.egress.pushing
    ensures Next(s, TakeJob(w)) == Some(s1) && Next(s1, WorkerCheck(w)) == Some(s2)
    ensures s2 == s.(egress := s.egress.(jobs := [], pushing := s.egress.pushing[w := job]))
  {
    var e := s.egress;
    s1 := s.(egress := e.(jobs := [], decoding := e.decoding[w := job]));
    s2 := s.(egress := e.(jobs := [], pushing := e.pushing[w := job]));
    assert [job][1..] == [] && e.decoding[w := job] - {w} == e.decoding;
  }

  lemma DecodedCanBeDelivered(s: State, job: Work, w: nat) returns (s1: State, s2: State)
    requires w in s.egress.pushing && s.egress.pushing[w] == job && job.generation == s.session
    ensures Next(s, PushEvent(w, true)) == Some(s1) && Next(s1, Deliver(|s.egress.events|)) == Some(s2)
    ensures s2.delivered == s.delivered + [Delivered(job, s.session)]
  {
    s1 := Next(s, PushEvent(w, true)).value;
    assert s1.egress.events[|s.egress.events|] == job;
    s2 := Next(s1, Deliver(|s.egress.events|)).value;
  }

  /** Media of a current peer can go out at once. */
  lemma MediaCanBeDelivered(s: State, t: nat, p: nat, item: nat) returns (s1: State, s2: State, s3: State)
    requires t !in s.egress.pushing && p in s.peers && s.peers[p] == s.session
    ensures Next(s, MediaCheck(t, p, item)) == Some(s1)
    ensures Next(s1, PushEvent(t, true)) == Some(s2) && Next(s2, Deliver(|s.egress.events|)) == Some(s3)
    ensures s3.delivered == s.delivered + [Delivered(Work(s.session, Message(s.session, Data(item), p)), s.session)]
  {
    s1 := Next(s, MediaCheck(t, p, item)).value;
    s2, s3 := DecodedCanBeDelivered(s1, Work(s.session, Message(s.session, Data(item), p)), t);
  }

  /** A connect can take the gate and reset into a new session, which the transport then carries, unvalidated. */
  lemma ConnectCanPrepare(s: State, a: nat) returns (s1: State, s2: State, s3: State, s4: State)
    requires s.lifecycle.Free? && a !in s.connects.attempts
    ensures Next(s, TakeGate(a)) == Some(s1) && Next(s1, ResetBegin(Some(a))) == Some(s2)
    ensures Next(s2, SetIngress) == Some(s3) && Next(s3, ResetEnd) == Some(s4)
    ensures s4.session == s.session + 1 && s4.slot == Slot(s.session + 1, None) && s4.lifecycle.Free?
    ensures a in s4.connects.attempts && s4.connects.attempts[a] == Prepared(s.session) && !s4.connects.validated
    ensures s4.peers == s.peers && s4.ingress == s.ingress
  {
    s1 := Next(s, TakeGate(a)).value;
    s2 := Next(s1, ResetBegin(Some(a))).value;
    s3, s4 := ResetCanEnd(s2);
  }

  /** A reset that has begun installs the session it moved to and leaves its connect, if any, prepared. */
  lemma ResetCanEnd(s: State) returns (s1: State, s2: State)
    requires s.lifecycle.Bumped?
    ensures Next(s, SetIngress) == Some(s1) && Next(s1, ResetEnd) == Some(s2)
    ensures s2.session == s.session && s2.slot == Slot(s.session, None) && s2.lifecycle.Free?
    ensures s2.peers == s.peers && s2.ingress == s.ingress && !s2.connects.validated
    ensures s.lifecycle.attempt.Some? && s.lifecycle.attempt.value in s.connects.attempts ==>
              s2.connects.attempts == s.connects.attempts[s.lifecycle.attempt.value :=
                                        Prepared(s.connects.attempts[s.lifecycle.attempt.value].gate)]
  {
    s1 := Next(s, SetIngress).value;
    s2 := Next(s1, ResetEnd).value;
  }

  /** A prepared connect succeeds once the router processes a validation of the current session. */
  lemma PreparedCanSucceed(s: State, a: nat, m: Message) returns (s1: State, s2: State)
    requires s.lifecycle.Free? && a in s.connects.attempts && s.connects.attempts[a].Prepared?
    requires s.ingress.router == Some(m) && m.payload.Validation? && m.generation == s.session
    ensures Next(s, Process(Ignore)) == Some(s1) && Next(s1, Poll(a)) == Some(s2)
    ensures s2.connects.attempts[a] == Succeeded(s.connects.attempts[a].gate, m)
  {
    s1 := Next(s, Process(Ignore)).value;
    s2 := Next(s1, Poll(a)).value;
  }

  /** A new peer can be bound, and gets the transport's generation. */
  lemma PeerCanBeBound(s: State, p: nat) returns (s': State)
    requires p !in s.peers
    ensures Next(s, BindPeer(p)) == Some(s') && s' == s.(peers := s.peers[p := s.slot.ingress])
  {
    s' := s.(peers := s.peers[p := s.slot.ingress]);
  }

  /** A fault of a current peer can reset the session on its own, even when the queue is full. */
  lemma FaultCanReset(s: State, p: nat) returns (s1: State, s2: State, s3: State, s4: State, s5: State)
    requires s.lifecycle.Free? && s.ingress.router.None? && p in s.peers && s.peers[p] == s.slot.ingress == s.session
    ensures Next(s, RecordFault(p, false)) == Some(s1) && Next(s1, TakeFault) == Some(s2) && Next(s2, Process(Ignore)) == Some(s3)
    ensures Next(s3, SetIngress) == Some(s4) && Next(s4, ResetEnd) == Some(s5)
    ensures s5.session == s.session + 1 && s5.slot == Slot(s.session + 1, None) && s5.lifecycle.Free? && !s5.connects.validated
  {
    s1 := Next(s, RecordFault(p, false)).value;
    s2 := Next(s1, TakeFault).value;
    s3 := Next(s2, Process(Ignore)).value;
    s4, s5 := ResetCanEnd(s3);
  }

  /** Routing, beginning a reset and preparing ingress exclude each other and a reset that is under way. */
  lemma LifecycleSectionsExclude(states: seq<State>, steps: seq<Step>, n: nat)
    requires Run(states, steps) && n < |steps|
    ensures steps[n].Process? || steps[n].ResetBegin? || steps[n].PrepareIngress? ==> states[n].lifecycle.Free?
    ensures steps[n].SetIngress? ==> states[n].lifecycle.Bumped?
    ensures steps[n].ResetEnd? ==> states[n].lifecycle.Set?
  {
    assert Next(states[n], steps[n]) == Some(states[n + 1]);
  }
}
