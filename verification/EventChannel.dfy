/**
 The budgeted callback channel as a concurrent protocol. Senders, permit drops and the receiver interleave at the
 granularity of the usage lock: between a sender's charge and its enqueue, and between a dequeue and the permit's
 release, other threads run.
 */
module EventChannel {
  import opened Common
  import opened MapSums

  const CONTROL_BYTES: nat := 2 * 1024 * 1024
  const MEDIA_BYTES: nat := 32 * 1024 * 1024

  datatype Class = Control | Media

  /** One counter per class. */
  datatype Counters = Counters(control: nat, media: nat) {
    function Get(k: Class): nat {
      if k.Control? then control else media
    }
    function Set(k: Class, n: nat): Counters {
      if k.Control? then Counters(n, media) else Counters(control, n)
    }
  }

  function ByteLimit(k: Class): nat {
    if k.Control? then CONTROL_BYTES else MEDIA_BYTES
  }

  /** Both the admission count limit and the bound of the inner queue of the class. */
  function CountLimit(capacity: nat, k: Class): nat {
    if k.Control? || capacity < 4 then capacity else 4
  }

  /** An envelope owns one permit for as long as it is alive, queued or dispatched. */
  datatype Envelope = Envelope(kind: Class, bytes: nat, generation: nat)

  /** An envelope the receiver side holds: just dequeued, returned to the dispatcher, or on its way to being dropped. */
  datatype Stage = Dequeued | Returned | Dropping

  datatype Receiver = Receiving | Draining | Gone

  datatype SendError = Full | Disconnected

  /**
   `live` holds every envelope that exists, by identity; the queues, `held` and `sending` say where each one is.
   `waiting` holds the senders that passed the unlocked generation check. The usage lock is held by a sender exactly
   while `sending` is set.
   */
  datatype State = State(
    capacity: nat,
    closed: bool,
    bytes: Counters,
    count: Counters,
    current: nat,
    live: map<nat, Envelope>,
    control: seq<nat>,
    media: seq<nat>,
    held: map<nat, Stage>,
    sending: Option<nat>,
    waiting: map<nat, Envelope>,
    receiver: Receiver,
    nextId: nat)
  {
    function Queue(k: Class): seq<nat> {
      if k.Control? then control else media
    }
    function WithQueue(k: Class, q: seq<nat>): State {
      if k.Control? then this.(control := q) else this.(media := q)
    }
  }

  /** `event_channel` refuses a capacity outside 1..256. */
  function Open(capacity: nat): Option<State> {
    if 1 <= capacity <= 256
    then Some(State(capacity, false, Counters(0, 0), Counters(0, 0), 0, map[], [], [], map[], None, map[], Receiving, 0))
    else None
  }

  // ---------------------------------------------------------------- steps

  datatype Step =
    | SetGeneration(generation: nat)
    | Precheck(thread: nat, event: Envelope)   // the unlocked check of try_send
    | Admit(thread: nat)                       // lock, recheck, charge
    | Push                                     // enqueue, unlock
    | Dequeue(from: Class)
    | CheckCurrent(id: nat)                    // return the envelope or start dropping it
    | Release(id: nat)                         // drop of an envelope: its permit gives the charge back
    | CloseReceiver
    | Drain(from: Class)
    | DropReceiver

  /** What the locked section answers to a sender, before the enqueue. */
  function Refusal(s: State, e: Envelope): Option<SendError> {
    if s.closed then Some(Disconnected)
    else if s.current != e.generation then Some(Full)
    else if s.bytes.Get(e.kind) + e.bytes > ByteLimit(e.kind) || s.count.Get(e.kind) >= CountLimit(s.capacity, e.kind)
    then Some(Full)
    else None
  }

  /** What the inner bounded channel would answer to the enqueue. */
  function InnerSend(s: State, k: Class): Option<SendError> {
    if s.receiver.Gone? then Some(Disconnected)
    else if |s.Queue(k)| >= CountLimit(s.capacity, k) then Some(Full)
    else None
  }

  /**
   No receiver call is under way: each envelope off the queues is with the dispatcher. The drop of the receiver owns it
   exclusively, and lets go of each drained envelope before it takes the next.
   */
  predicate Idle(s: State) {
    forall id :: id in s.held ==> s.held[id].Returned?
  }

  predicate Enabled(s: State, step: Step) {
    match step
    case SetGeneration(_) => true
    case Precheck(t, e) => t !in s.waiting && s.current == e.generation
    case Admit(t) => s.sending.None? && t in s.waiting
    case Push => s.sending.Some? && s.sending.value in s.live
    case Dequeue(k) => s.receiver.Receiving? && s.Queue(k) != []
    case CheckCurrent(id) => id in s.held && s.held[id].Dequeued? && id in s.live
    case Release(id) => s.sending.None? && id in s.held && !s.held[id].Dequeued? && id in s.live
    case CloseReceiver => s.sending.None? && s.receiver.Receiving? && Idle(s)
    case Drain(k) => s.receiver.Draining? && Idle(s) && s.Queue(k) != [] && (k.Media? ==> s.control == [])
    case DropReceiver => s.receiver.Draining? && Idle(s) && s.control == [] && s.media == []
  }

  function Charged(s: State, e: Envelope): State {
    s.(bytes := s.bytes.Set(e.kind, s.bytes.Get(e.kind) + e.bytes),
       count := s.count.Set(e.kind, s.count.Get(e.kind) + 1),
       live := s.live[s.nextId := e],
       sending := Some(s.nextId),
       nextId := s.nextId + 1)
  }

  /** The drop of a permit; a subtraction that would underflow is a panic, shown here as an untouched state. */
  function Released(s: State, id: nat): State
    requires id in s.live
  {
    var e := s.live[id];
    if s.bytes.Get(e.kind) < e.bytes || s.count.Get(e.kind) < 1 then s
    else s.(bytes := s.bytes.Set(e.kind, s.bytes.Get(e.kind) - e.bytes),
            count := s.count.Set(e.kind, s.count.Get(e.kind) - 1),
            live := s.live - {id},
            held := s.held - {id})
  }

  /** The head of a queue moved to the receiver side. */
  function Taken(s: State, k: Class, stage: Stage): State
    requires s.Queue(k) != []
  {
    s.WithQueue(k, s.Queue(k)[1..]).(held := s.held[s.Queue(k)[0] := stage])
  }

  function Apply(s: State, step: Step): State
    requires Enabled(s, step)
  {
    match step
    case SetGeneration(g) => s.(current := g)
    case Precheck(t, e) => s.(waiting := s.waiting[t := e])
    case Admit(t) =>
      var after := s.(waiting := s.waiting - {t});
      if Refusal(s, s.waiting[t]).Some? then after else Charged(after, s.waiting[t])
    case Push =>
      var id := s.sending.value;
      var k := s.live[id].kind;
      if InnerSend(s, k).Some? then s.(sending := None, held := s.held[id := Dropping])
      else s.WithQueue(k, s.Queue(k) + [id]).(sending := None)
    case Dequeue(k) => Taken(s, k, Dequeued)
    case CheckCurrent(id) =>
      s.(held := s.held[id := if s.current == s.live[id].generation then Returned else Dropping])
    case Release(id) => Released(s, id)
    case CloseReceiver => s.(closed := true, receiver := Draining)
    case Drain(k) => Taken(s, k, Dropping)
    case DropReceiver => s.(receiver := Gone)
  }

  function Next(s: State, step: Step): Option<State> {
    if Enabled(s, step) then Some(Apply(s, step)) else None
  }

  ghost predicate Run(states: seq<State>, steps: seq<Step>) {
    && |states| == |steps| + 1
    && Open(states[0].capacity) == Some(states[0])
    && forall i :: 0 <= i < |steps| ==> Next(states[i], steps[i]) == Some(states[i + 1])
  }

  // ---------------------------------------------------------------- invariant

  function Charges(live: map<nat, Envelope>, k: Class): map<nat, nat> {
    map id | id in live && live[id].kind == k :: live[id].bytes
  }

  ghost predicate Accounted(s: State, k: Class) {
    && s.bytes.Get(k) == Total(Charges(s.live, k)) <= ByteLimit(k)
    && s.count.Get(k) == |Charges(s.live, k)| <= CountLimit(s.capacity, k)
  }

  predicate Distinct(q: seq<nat>) {
    forall i, j :: 0 <= i < j < |q| ==> q[i] != q[j]
  }

  ghost predicate Queued(s: State, k: Class) {
    && Distinct(s.Queue(k))
    && forall id :: id in s.Queue(k) ==> id in s.live && s.live[id].kind == k && id !in s.held && s.sending != Some(id)
  }

  /** Every envelope is in exactly one place. */
  ghost predicate Placed(s: State) {
    && Queued(s, Control) && Queued(s, Media)
    && (forall id :: id in s.held ==> id in s.live && s.sending != Some(id))
    && (s.sending.Some? ==> s.sending.value in s.live)
    && (forall id :: id in s.live ==> id in s.control || id in s.media || id in s.held || s.sending == Some(id))
    && (forall id :: id in s.live ==> id < s.nextId)
  }

  ghost predicate Closing(s: State) {
    && (s.closed <==> !s.receiver.Receiving?)
    && (s.sending.Some? ==> !s.closed)
    && (s.receiver.Gone? ==> s.control == [] && s.media == [] && Idle(s))
  }

  ghost predicate Inv(s: State) {
    && 1 <= s.capacity <= 256
    && Accounted(s, Control) && Accounted(s, Media)
    && Placed(s) && Closing(s)
  }

  lemma ChargesInsert(live: map<nat, Envelope>, id: nat, e: Envelope, k: Class)
    requires id !in live
    ensures Total(Charges(live[id := e], k)) == Total(Charges(live, k)) + if e.kind == k then e.bytes else 0
    ensures |Charges(live[id := e], k)| == |Charges(live, k)| + if e.kind == k then 1 else 0
  {
    var before, after := Charges(live, k), Charges(live[id := e], k);
    if e.kind == k {
      assert after == before[id := e.bytes];
      TotalInsert(before, id, e.bytes);
      assert after.Keys == before.Keys + {id};
    } else {
      assert after == before;
    }
  }

  lemma ChargesRemove(live: map<nat, Envelope>, id: nat, k: Class)
    requires id in live
    ensures Total(Charges(live, k)) == Total(Charges(live - {id}, k)) + if live[id].kind == k then live[id].bytes else 0
    ensures |Charges(live, k)| == |Charges(live - {id}, k)| + if live[id].kind == k then 1 else 0
  {
    ChargesInsert(live - {id}, id, live[id], k);
    assert live == (live - {id})[id := live[id]];
  }

  lemma {:induction false} DistinctFits(q: seq<nat>, ids: set<nat>)
    requires Distinct(q) && forall id :: id in q ==> id in ids
    ensures |q| <= |ids|
  {
    if q == [] {
    } else {
      var last := q[|q| - 1];
      forall id | id in q[..|q| - 1]
        ensures id in ids - {last}
      {
        var i :| 0 <= i < |q| - 1 && q[i] == id;
      }
      assert last in ids;
      DistinctFits(q[..|q| - 1], ids - {last});
    }
  }

  /** The permit accounting implies that no release underflows. */
  lemma ReleaseCannotUnderflow(s: State, id: nat)
    requires Accounted(s, Control) && Accounted(s, Media) && id in s.live
    ensures s.bytes.Get(s.live[id].kind) >= s.live[id].bytes && s.count.Get(s.live[id].kind) >= 1
  {
    ChargesRemove(s.live, id, s.live[id].kind);
  }

  /** After admission the inner channel has room and a receiver, so the enqueue cannot fail. */
  lemma AdmittedSendCannotFail(s: State)
    requires Inv(s) && s.sending.Some?
    ensures InnerSend(s, s.live[s.sending.value].kind).None?
  {
    var id := s.sending.value;
    var k := s.live[id].kind;
    var q := s.Queue(k) + [id];
    assert Queued(s, k);
    assert Distinct(q);
    forall x | x in q
      ensures x in Charges(s.live, k).Keys
    {
      assert x in s.Queue(k) || x == id;
    }
    DistinctFits(q, Charges(s.live, k).Keys);
  }

  // ---------------------------------------------------------------- every step keeps the invariant

  lemma ChargeKeepsAccounts(s: State, e: Envelope, k: Class)
    requires Accounted(s, k) && Refusal(s, e).None? && s.nextId !in s.live
    ensures Accounted(Charged(s, e), k)
  {
    ChargesInsert(s.live, s.nextId, e, k);
  }

  lemma ChargeKeepsPlaced(s: State, e: Envelope)
    requires Placed(s) && s.sending.None?
    ensures Placed(Charged(s, e))
  {
    var s' := Charged(s, e);
    assert s.nextId !in s.live;
    assert Queued(s', Control) && Queued(s', Media);
  }

  lemma AdmitKeepsInv(s: State, t: nat)
    requires Inv(s) && Enabled(s, Admit(t))
    ensures Inv(Apply(s, Admit(t)))
  {
    var e := s.waiting[t];
    var after := s.(waiting := s.waiting - {t});
    assert Inv(after);
    if Refusal(s, e).None? {
      assert after.nextId !in after.live;
      ChargeKeepsAccounts(after, e, Control);
      ChargeKeepsAccounts(after, e, Media);
      ChargeKeepsPlaced(after, e);
    }
  }

  lemma AppendKeepsQueued(s: State, k: Class, id: nat)
    requires Placed(s) && s.sending == Some(id) && s.live[id].kind == k
    ensures Placed(s.WithQueue(k, s.Queue(k) + [id]).(sending := None))
  {
    var s' := s.WithQueue(k, s.Queue(k) + [id]).(sending := None);
    assert id !in s.control && id !in s.media;
    assert forall x :: x in s.Queue(k) + [id] <==> x in s.Queue(k) || x == id;
    assert Queued(s', Control);
    assert Queued(s', Media);
  }

  lemma PushKeepsInv(s: State)
    requires Inv(s) && Enabled(s, Push)
    ensures Inv(Apply(s, Push))
  {
    AdmittedSendCannotFail(s);
    var id := s.sending.value;
    var k := s.live[id].kind;
    AppendKeepsQueued(s, k, id);
    var s' := s.WithQueue(k, s.Queue(k) + [id]).(sending := None);
    assert Apply(s, Push) == s';
    SameAccounts(s, s', Control);
    SameAccounts(s, s', Media);
  }

  lemma SameAccounts(s: State, s': State, k: Class)
    requires Accounted(s, k)
    requires s'.bytes == s.bytes && s'.count == s.count && s'.live == s.live && s'.capacity == s.capacity
    ensures Accounted(s', k)
  {
  }

  lemma TakeKeepsPlaced(s: State, k: Class, stage: Stage)
    requires Placed(s) && s.Queue(k) != []
    ensures Placed(Taken(s, k, stage))
  {
    var q, s' := s.Queue(k), Taken(s, k, stage);
    assert q[0] in q && q[0] !in q[1..];
    assert forall id :: id in q <==> id == q[0] || id in q[1..];
    assert Queued(s', Control) && Queued(s', Media);
  }

  lemma TakeKeepsInv(s: State, k: Class, stage: Stage)
    requires Inv(s) && s.Queue(k) != [] && !s.receiver.Gone?
    ensures Inv(Taken(s, k, stage))
  {
    TakeKeepsPlaced(s, k, stage);
  }

  lemma ReleaseKeepsAccounts(s: State, id: nat, k: Class)
    requires Accounted(s, Control) && Accounted(s, Media) && id in s.live
    ensures Accounted(Released(s, id), k)
  {
    ReleaseCannotUnderflow(s, id);
    ChargesRemove(s.live, id, k);
  }

  lemma ReleaseKeepsPlaced(s: State, id: nat)
    requires Placed(s) && id in s.held
    ensures Placed(Released(s, id))
  {
    assert Queued(Released(s, id), Control) && Queued(Released(s, id), Media);
  }

  lemma ReleaseKeepsInv(s: State, id: nat)
    requires Inv(s) && id in s.held
    ensures Inv(Released(s, id))
  {
    ReleaseKeepsAccounts(s, id, Control);
    ReleaseKeepsAccounts(s, id, Media);
    ReleaseKeepsPlaced(s, id);
  }

  lemma CheckKeepsInv(s: State, id: nat)
    requires Inv(s) && Enabled(s, CheckCurrent(id))
    ensures Inv(Apply(s, CheckCurrent(id)))
  {
    var s' := Apply(s, CheckCurrent(id));
    assert s'.held.Keys == s.held.Keys;
    assert Queued(s', Control) && Queued(s', Media);
  }

  lemma StepKeepsInv(s: State, step: Step, s': State)
    requires Inv(s) && Next(s, step) == Some(s')
    ensures Inv(s')
  {
    match step
    case SetGeneration(_) =>
    case Precheck(_, _) =>
    case Admit(t) => AdmitKeepsInv(s, t);
    case Push => PushKeepsInv(s);
    case Dequeue(k) => TakeKeepsInv(s, k, Dequeued);
    case CheckCurrent(id) => CheckKeepsInv(s, id);
    case Release(id) => ReleaseKeepsInv(s, id);
    case CloseReceiver =>
    case Drain(k) => TakeKeepsInv(s, k, Dropping);
    case DropReceiver =>
  }

  lemma OpenHasInv(capacity: nat)
    requires Open(capacity).Some?
    ensures Inv(Open(capacity).value)
  {
    assert Charges(map[], Control) == map[] && Charges(map[], Media) == map[];
  }

  predicate UsageWithinLimits(s: State) {
    && s.bytes.control <= 2 * 1024 * 1024 && s.count.control <= s.capacity
    && s.bytes.media <= 32 * 1024 * 1024 && s.count.media <= s.capacity && s.count.media <= 4
  }

  lemma InvBoundsUsage(s: State)
    requires Inv(s)
    ensures UsageWithinLimits(s)
  {
    assert Accounted(s, Control) && Accounted(s, Media);
  }

  /** In every interleaving: counters equal the sums over live envelopes, within the limits, each in one place. */
  lemma AccountingHoldsOverEveryRun(states: seq<State>, steps: seq<Step>)
    requires Run(states, steps)
    ensures forall n :: 0 <= n < |states| ==> Inv(states[n])
    ensures forall n :: 0 <= n < |states| ==> UsageWithinLimits(states[n])
  {
    OpenHasInv(states[0].capacity);
    for n := 0 to |steps|
      invariant forall i :: 0 <= i <= n ==> Inv(states[i])
    {
      StepKeepsInv(states[n], steps[n], states[n + 1]);
    }
    forall n | 0 <= n < |states|
      ensures UsageWithinLimits(states[n])
    {
      InvBoundsUsage(states[n]);
    }
  }

  // ---------------------------------------------------------------- consequences

  /** In every interleaving: an admitted event never meets a full or disconnected queue, and no release underflows. */
  lemma AdmissionIsFinalInEveryRun(states: seq<State>, steps: seq<Step>, n: nat)
    requires Run(states, steps) && n < |states|
    ensures states[n].sending.Some? ==>
              states[n].sending.value in states[n].live
              && InnerSend(states[n], states[n].live[states[n].sending.value].kind).None?
    ensures forall id | id in states[n].live ::
              states[n].bytes.Get(states[n].live[id].kind) >= states[n].live[id].bytes
              && states[n].count.Get(states[n].live[id].kind) >= 1
  {
    AccountingHoldsOverEveryRun(states, steps);
    var s := states[n];
    assert Inv(s);
    if s.sending.Some? {
      AdmittedSendCannotFail(s);
    }
    forall id | id in s.live
      ensures s.bytes.Get(s.live[id].kind) >= s.live[id].bytes && s.count.Get(s.live[id].kind) >= 1
    {
      ReleaseCannotUnderflow(s, id);
    }
  }

  /** Once the receiver is gone, what remains charged is exactly what the dispatcher still holds. */
  lemma OnlyDispatchedRemainCharged(states: seq<State>, steps: seq<Step>, n: nat)
    requires Run(states, steps) && n < |states| && states[n].receiver.Gone?
    ensures var s := states[n];
            && s.live.Keys == s.held.Keys && (forall id :: id in s.held ==> s.held[id].Returned?)
            && (forall k: Class :: s.bytes.Get(k) == Total(Charges(s.live, k)) && s.count.Get(k) == |Charges(s.live, k)|)
            && (s.held == map[] ==> s.bytes == Counters(0, 0) && s.count == Counters(0, 0))
  {
    AccountingHoldsOverEveryRun(states, steps);
    var s := states[n];
    assert Accounted(s, Control) && Accounted(s, Media);
    if s.held == map[] {
      assert s.live == map[];
      assert Charges(s.live, Control) == map[] && Charges(s.live, Media) == map[];
    }
  }

  lemma ClosedStep(s: State, step: Step, s': State)
    requires Next(s, step) == Some(s') && s.closed
    ensures s'.closed && s'.nextId == s.nextId
  {
  }

  /** A closed channel admits nothing any more: no envelope is ever created after the receiver starts to drop. */
  lemma {:induction false} ClosedAdmitsNothing(states: seq<State>, steps: seq<Step>, m: nat, n: nat)
    requires Run(states, steps) && m <= n < |states| && states[m].closed
    ensures states[n].closed && states[n].nextId == states[m].nextId
    decreases n - m
  {
    if m == n {
    } else {
      ClosedAdmitsNothing(states, steps, m, n - 1);
      ClosedStep(states[n - 1], steps[n - 1], states[n]);
    }
  }

  // ---------------------------------------------------------------- exactly what is admitted and what is returned

  /** A channel opens exactly for a capacity of 1 to 256, empty and uncharged. */
  lemma OpensExactlyWhen(capacity: nat)
    ensures Open(capacity).Some? <==> 1 <= capacity <= 256
    ensures Open(capacity).Some? ==>
              var s := Open(capacity).value;
              s.live == map[] && s.control == [] && s.media == [] && !s.closed && s.receiver.Receiving? && s.capacity == capacity
  {
  }

  predicate WithinLimits(s: State, e: Envelope) {
    match e.kind
    case Control => s.bytes.control + e.bytes <= 2 * 1024 * 1024 && s.count.control < s.capacity
    case Media => s.bytes.media + e.bytes <= 32 * 1024 * 1024 && s.count.media < s.capacity && s.count.media < 4
  }

  /** A waiting event is admitted exactly when the channel is open, its generation current and both limits leave room. */
  lemma AdmittedExactlyWhen(states: seq<State>, steps: seq<Step>, n: nat, t: nat)
    requires Run(states, steps) && n < |steps| && steps[n] == Admit(t)
    ensures t in states[n].waiting && t !in states[n + 1].waiting
    ensures var s, s', e := states[n], states[n + 1], states[n].waiting[t];
            if !s.closed && s.current == e.generation && WithinLimits(s, e)
            then s'.live == s.live[s.nextId := e] && s'.sending == Some(s.nextId)
            else s'.live == s.live && s'.sending == s.sending && s'.bytes == s.bytes && s'.count == s.count
  {
    assert Next(states[n], steps[n]) == Some(states[n + 1]);
  }

  /** An admitted envelope joins its queue at the end, and the receiver takes from the front. */
  lemma QueuesAreFifo(states: seq<State>, steps: seq<Step>, n: nat)
    requires Run(states, steps) && n < |steps|
    ensures steps[n].Push? ==>
              && states[n].sending.Some? && states[n].sending.value in states[n].live
              && (var k := states[n].live[states[n].sending.value].kind;
                  states[n + 1].Queue(k) == states[n].Queue(k) + [states[n].sending.value])
    ensures steps[n].Dequeue? ==>
              && states[n].Queue(steps[n].from) != []
              && states[n + 1].Queue(steps[n].from) == states[n].Queue(steps[n].from)[1..]
              && states[n + 1].held == states[n].held[states[n].Queue(steps[n].from)[0] := Dequeued]
  {
    AdmissionIsFinalInEveryRun(states, steps, n);
    assert Next(states[n], steps[n]) == Some(states[n + 1]);
  }

  /** A taken envelope is returned exactly when its generation is current at the check, and dropped otherwise. */
  lemma ReturnedExactlyWhen(states: seq<State>, steps: seq<Step>, n: nat, id: nat)
    requires Run(states, steps) && n < |steps| && steps[n] == CheckCurrent(id)
    ensures id in states[n].live && id in states[n + 1].held
    ensures states[n + 1].held[id] == if states[n].live[id].generation == states[n].current then Returned else Dropping
    ensures states[n + 1].live == states[n].live
  {
    assert Next(states[n], steps[n]) == Some(states[n + 1]);
  }

  /** A release gives back exactly its envelope's charge. */
  lemma ReleaseGivesBack(states: seq<State>, steps: seq<Step>, n: nat, id: nat)
    requires Run(states, steps) && n < |steps| && steps[n] == Release(id)
    ensures id in states[n].live && states[n + 1].live == states[n].live - {id} && id !in states[n + 1].held
    ensures forall k: Class :: states[n + 1].bytes.Get(k)
                               == states[n].bytes.Get(k) - if k == states[n].live[id].kind then states[n].live[id].bytes else 0
    ensures forall k: Class :: states[n + 1].count.Get(k) == states[n].count.Get(k) - if k == states[n].live[id].kind then 1 else 0
  {
    AdmissionIsFinalInEveryRun(states, steps, n);
    assert Next(states[n], steps[n]) == Some(states[n + 1]);
  }

  /** The generation of the channel is the one last set. */
  lemma GenerationIsTheOneSet(states: seq<State>, steps: seq<Step>, n: nat)
    requires Run(states, steps) && n < |steps|
    ensures states[n + 1].current == if steps[n].SetGeneration? then steps[n].generation else states[n].current
  {
    assert Next(states[n], steps[n]) == Some(states[n + 1]);
    GenerationStep(states[n], steps[n], states[n + 1]);
  }

  lemma GenerationStep(s: State, step: Step, s': State)
    requires Next(s, step) == Some(s')
    ensures s'.current == if step.SetGeneration? then step.generation else s.current
  {
    match step
    case Admit(_) =>
    case Push =>
    case Release(_) =>
    case _ =>
  }

  /** A sender that found its generation current waits with its event; the receiver's drop closes before it drains. */
  lemma OutsideStepsTakeEffect(states: seq<State>, steps: seq<Step>, n: nat)
    requires Run(states, steps) && n < |steps|
    ensures steps[n].Precheck? ==>
              states[n].current == steps[n].event.generation
              && states[n + 1].waiting == states[n].waiting[steps[n].thread := steps[n].event]
    ensures steps[n].CloseReceiver? ==> states[n + 1].closed && states[n + 1].receiver.Draining?
    ensures steps[n].DropReceiver? ==> states[n + 1].receiver.Gone?
  {
    assert Next(states[n], steps[n]) == Some(states[n + 1]);
  }

  /** A current event within the limits can go all the way from its sender to the dispatcher. */
  lemma EventCanBeReceived(s: State, t: nat, e: Envelope) returns (s1: State, s2: State, s3: State, s4: State, s5: State)
    requires Inv(s) && !s.closed && s.sending.None? && t !in s.waiting && s.current == e.generation && WithinLimits(s, e)
    requires s.Queue(e.kind) == []
    ensures Next(s, Precheck(t, e)) == Some(s1) && Next(s1, Admit(t)) == Some(s2) && Next(s2, Push) == Some(s3)
    ensures Next(s3, Dequeue(e.kind)) == Some(s4) && Next(s4, CheckCurrent(s.nextId)) == Some(s5)
    ensures s.nextId in s5.live && s5.live[s.nextId] == e && s.nextId in s5.held && s5.held[s.nextId].Returned?
  {
    s1, s2 := EventCanBeAdmitted(s, t, e);
    s3 := AdmittedCanBeQueued(s2, e.kind, s.nextId);
    s4, s5 := QueuedCanBeReturned(s3, e.kind, s.nextId);
  }

  lemma EventCanBeAdmitted(s: State, t: nat, e: Envelope) returns (s1: State, s2: State)
    requires !s.closed && s.sending.None? && t !in s.waiting && s.current == e.generation && WithinLimits(s, e)
    ensures Next(s, Precheck(t, e)) == Some(s1) && Next(s1, Admit(t)) == Some(s2)
    ensures s2.sending == Some(s.nextId) && s2.live == s.live[s.nextId := e] && s2.current == s.current
    ensures s2.control == s.control && s2.media == s.media && s2.receiver == s.receiver && s2.capacity == s.capacity
  {
    s1 := Next(s, Precheck(t, e)).value;
    s2 := Next(s1, Admit(t)).value;
  }

  lemma AdmittedCanBeQueued(s: State, k: Class, id: nat) returns (s': State)
    requires s.sending == Some(id) && id in s.live && s.live[id].kind == k && s.Queue(k) == [] && s.capacity >= 1
    requires s.receiver.Receiving?
    ensures Next(s, Push) == Some(s')
    ensures s'.Queue(k) == [id] && s'.live == s.live && s'.current == s.current && s'.receiver == s.receiver
  {
    s' := Next(s, Push).value;
  }

  lemma QueuedCanBeReturned(s: State, k: Class, id: nat) returns (s1: State, s2: State)
    requires s.receiver.Receiving? && s.Queue(k) == [id] && id in s.live && s.live[id].generation == s.current
    ensures Next(s, Dequeue(k)) == Some(s1) && Next(s1, CheckCurrent(id)) == Some(s2)
    ensures s2.live == s.live && id in s2.held && s2.held[id].Returned?
  {
    s1 := Next(s, Dequeue(k)).value;
    s2 := Next(s1, CheckCurrent(id)).value;
  }

  // ---------------------------------------------------------------- the receiver can always be dropped

  ghost predicate Leads(states: seq<State>, steps: seq<Step>, s: State, s': State) {
    && |states| == |steps| + 1 && states[0] == s && states[|steps|] == s'
    && forall i :: 0 <= i < |steps| ==> Next(states[i], steps[i]) == Some(states[i + 1])
  }

  /** Some steps lead from one state to the other. */
  ghost predicate Reaches(s: State, s': State) {
    exists states, steps :: Leads(states, steps, s, s')
  }

  lemma Perform(s0: State, s: State, step: Step) returns (s': State)
    requires Reaches(s0, s) && Inv(s) && Enabled(s, step)
    ensures s' == Apply(s, step) && Reaches(s0, s') && Inv(s')
  {
    s' := Apply(s, step);
    StepKeepsInv(s, step, s');
    var states, steps :| Leads(states, steps, s0, s);
    assert Leads(states + [s'], steps + [step], s0, s');
  }

  /** A drained envelope is let go before the next is taken. */
  lemma DrainOne(s0: State, s: State, k: Class) returns (s': State)
    requires Reaches(s0, s) && Inv(s) && s.receiver.Draining? && Idle(s) && s.Queue(k) != [] && (k.Media? ==> s.control == [])
    ensures Reaches(s0, s') && Inv(s') && s'.receiver.Draining? && Idle(s') && s'.Queue(k) == s.Queue(k)[1..]
    ensures s'.control == if k.Control? then s.control[1..] else s.control
    ensures s'.media == if k.Media? then s.media[1..] else s.media
  {
    var id := s.Queue(k)[0];
    assert id in s.Queue(k) && Queued(s, k);
    var s1 := Perform(s0, s, Drain(k));
    s' := DrainedCanBeReleased(s0, s1, id);
    assert s1.held == s.held[id := Dropping];
  }

  lemma DrainedCanBeReleased(s0: State, s: State, id: nat) returns (s': State)
    requires Reaches(s0, s) && Inv(s) && s.receiver.Draining? && id in s.held && s.held[id].Dropping?
    requires forall x :: x in s.held && x != id ==> s.held[x].Returned?
    ensures Reaches(s0, s') && Inv(s') && s'.receiver == s.receiver && Idle(s') && s'.control == s.control && s'.media == s.media
  {
    assert s.closed && id in s.live;
    ReleaseCannotUnderflow(s, id);
    s' := Perform(s0, s, Release(id));
  }

  lemma {:induction false} DrainingCanEnd(s0: State, s: State) returns (s': State)
    requires Reaches(s0, s) && Inv(s) && s.receiver.Draining? && Idle(s)
    ensures Reaches(s0, s') && s'.receiver.Gone?
    decreases |s.control| + |s.media|
  {
    if s.control == [] && s.media == [] {
      s' := Perform(s0, s, DropReceiver);
    } else {
      var s1 := DrainOne(s0, s, if s.control == [] then Media else Control);
      s' := DrainingCanEnd(s0, s1);
    }
  }

  /** A receiver with no call under way can be dropped: it closes, gives back every queued charge and is gone. */
  lemma ReceiverCanBeDropped(states: seq<State>, steps: seq<Step>, n: nat) returns (s': State)
    requires Run(states, steps) && n < |states|
    requires states[n].receiver.Receiving? && states[n].sending.None? && Idle(states[n])
    ensures Reaches(states[n], s') && s'.receiver.Gone?
  {
    AccountingHoldsOverEveryRun(states, steps);
    var s := states[n];
    assert Leads([s], [], s, s);
    var s1 := Perform(s, s, CloseReceiver);
    s' := DrainingCanEnd(s, s1);
  }

  // ---------------------------------------------------------------- the receiver's own loops

  function Weight(q: seq<Envelope>, k: Class): nat {
    if q == [] then 0 else (if q[0].kind == k then q[0].bytes else 0) + Weight(q[1..], k)
  }

  function Number(q: seq<Envelope>, k: Class): nat {
    if q == [] then 0 else (if q[0].kind == k then 1 else 0) + Number(q[1..], k)
  }

  /** How many envelopes are stale before the first that is not, when check number i reads the generation `current(i)`. */
  function LeadingStale(order: seq<Envelope>, current: nat -> nat, from: nat): (n: nat)
    ensures n <= |order|
    ensures forall j :: 0 <= j < n ==> order[j].generation != current(from + j)
    ensures n < |order| ==> order[n].generation == current(from + n)
    decreases order
  {
    if order == [] || order[0].generation == current(from) then 0
    else
      var n := LeadingStale(order[1..], current, from + 1);
      assert forall j :: 1 <= j < n + 1 ==> order[j] == order[1..][j - 1] && current(from + j) == current(from + 1 + (j - 1));
      n + 1
  }

  lemma LeadingStaleIs(order: seq<Envelope>, current: nat -> nat, n: nat)
    requires n <= |order| && (forall j :: 0 <= j < n ==> order[j].generation != current(j))
    requires n < |order| ==> order[n].generation == current(n)
    ensures LeadingStale(order, current, 0) == n
  {
  }

  /** The first `done` envelopes were found stale, and `rest` is what is left. */
  ghost predicate Passed(order: seq<Envelope>, done: nat, current: nat -> nat, rest: seq<Envelope>) {
    && done <= |order| && rest == order[done..]
    && forall j :: 0 <= j < done ==> order[j].generation != current(j)
  }

  lemma PassedNext(order: seq<Envelope>, done: nat, current: nat -> nat, rest: seq<Envelope>)
    requires Passed(order, done, current, rest) && rest != []
    ensures order[..done + 1] == order[..done] + [rest[0]] && rest[0] == order[done] && rest[1..] == order[done + 1..]
    ensures if rest[0].generation == current(done) then LeadingStale(order, current, 0) == done
            else Passed(order, done + 1, current, rest[1..])
  {
    if rest[0].generation == current(done) {
      LeadingStaleIs(order, current, done);
    }
  }

  lemma PassedAll(order: seq<Envelope>, done: nat, current: nat -> nat)
    requires Passed(order, done, current, [])
    ensures done == |order| == LeadingStale(order, current, 0)
  {
    assert |order[done..]| == |order| - done;
    LeadingStaleIs(order, current, |order|);
  }

  datatype Received = Delivery(envelope: Envelope) | Empty | NoSenders

  lemma {:induction false} WeightConcat(a: seq<Envelope>, b: seq<Envelope>, k: Class)
    ensures Weight(a + b, k) == Weight(a, k) + Weight(b, k) && Number(a + b, k) == Number(a, k) + Number(b, k)
  {
    if a == [] {
      assert a + b == b;
    } else {
      assert (a + b)[1..] == a[1..] + b;
      WeightConcat(a[1..], b, k);
    }
  }

  /** Weight and number are what the envelopes of a class are charged: their bytes, and one each. */
  lemma WeightByEnvelope(e: Envelope, rest: seq<Envelope>, k: Class)
    ensures Weight([e] + rest, k) == Weight(rest, k) + if e.kind == k then e.bytes else 0
    ensures Number([e] + rest, k) == Number(rest, k) + if e.kind == k then 1 else 0
    ensures Weight([], k) == 0 && Number([], k) == 0
  {
    assert ([e] + rest)[1..] == rest;
  }

  lemma WeightOne(e: Envelope)
    ensures forall k: Class :: Weight([e], k) == (if e.kind == k then e.bytes else 0) && Number([e], k) == (if e.kind == k then 1 else 0)
  {
    assert [e] + [] == [e];
    WeightByEnvelope(e, [], Control);
    WeightByEnvelope(e, [], Media);
  }

  lemma WeightPop(e: Envelope, rest: seq<Envelope>)
    ensures forall k: Class :: Weight([e] + rest, k) == Weight([e], k) + Weight(rest, k)
                            && Number([e] + rest, k) == Number([e], k) + Number(rest, k)
  {
    WeightConcat([e], rest, Control);
    WeightConcat([e], rest, Media);
  }

  lemma WeightSnoc(done: seq<Envelope>, e: Envelope)
    ensures forall k: Class :: Weight(done + [e], k) == Weight(done, k) + Weight([e], k)
                            && Number(done + [e], k) == Number(done, k) + Number([e], k)
  {
    WeightConcat(done, [e], Control);
    WeightConcat(done, [e], Media);
  }

  /** The receiving half without interference: two queues whose envelopes are charged to the counters. */
  class EventReceiver {
    var closed: bool
    var bytes: Counters
    var count: Counters
    var control: seq<Envelope>
    var media: seq<Envelope>

    ghost predicate Covered()
      reads this
    {
      forall k: Class :: Weight(control + media, k) <= bytes.Get(k) && Number(control + media, k) <= count.Get(k)
    }

    constructor ()
      ensures Covered() && !closed && control + media == []
    {
      closed, bytes, count := false, Counters(0, 0), Counters(0, 0);
      control, media := [], [];
    }

    /** Drop of an envelope: its permit returns the charge. */
    method Release(e: Envelope)
      requires e.bytes <= bytes.Get(e.kind) && 1 <= count.Get(e.kind)
      modifies this`bytes, this`count
      ensures forall k: Class :: bytes.Get(k) == old(bytes).Get(k) - Weight([e], k)
                              && count.Get(k) == old(count).Get(k) - Number([e], k)
    {
      WeightOne(e);
      bytes := bytes.Set(e.kind, bytes.Get(e.kind) - e.bytes);
      count := count.Set(e.kind, count.Get(e.kind) - 1);
    }

    method Pop() returns (e: Envelope)
      requires control + media != []
      modifies this`control, this`media
      ensures e == old(control + media)[0] && control + media == old(control + media)[1..]
    {
      if control != [] {
        e := control[0];
        control := control[1..];
      } else {
        e := media[0];
        media := media[1..];
      }
    }

    /** After a pop the counters still cover what is queued, and the popped envelope besides. */
    method PopCovered() returns (e: Envelope)
      requires Covered() && control + media != []
      modifies this`control, this`media
      ensures e == old(control + media)[0] && control + media == old(control + media)[1..]
      ensures Covered() && e.bytes <= bytes.Get(e.kind) && 1 <= count.Get(e.kind)
      ensures forall k: Class :: Weight(control + media, k) + Weight([e], k) <= bytes.Get(k)
                              && Number(control + media, k) + Number([e], k) <= count.Get(k)
    {
      ghost var rest := control + media;
      e := Pop();
      assert rest == [e] + (control + media);
      WeightPop(e, control + media);
      WeightOne(e);
    }

    /** The counters are down by exactly the charges of `done`. */
    ghost predicate GaveBack(bytes0: Counters, count0: Counters, done: seq<Envelope>)
      reads this
    {
      forall k: Class :: bytes.Get(k) == bytes0.Get(k) - Weight(done, k) && count.Get(k) == count0.Get(k) - Number(done, k)
    }

    method ReleaseStale(e: Envelope, ghost bytes0: Counters, ghost count0: Counters, ghost done: seq<Envelope>)
      requires e.bytes <= bytes.Get(e.kind) && 1 <= count.Get(e.kind) && GaveBack(bytes0, count0, done)
      requires forall k: Class :: Weight(control + media, k) + Weight([e], k) <= bytes.Get(k)
                               && Number(control + media, k) + Number([e], k) <= count.Get(k)
      modifies this`bytes, this`count
      ensures Covered() && GaveBack(bytes0, count0, done + [e])
    {
      WeightSnoc(done, e);
      Release(e);
    }

    /** Control before media, each in arrival order: the first current envelope; every stale one before it is released. */
    method TryDelivery(current: nat -> nat, controlLost: bool, mediaLost: bool) returns (received: Received)
      requires Covered()
      modifies this
      ensures Covered() && closed == old(closed)
      ensures var order := old(control + media); var n := LeadingStale(order, current, 0);
              && (if n == |order| then control + media == [] && received == (if controlLost && mediaLost then NoSenders else Empty)
                  else received == Delivery(order[n]) && control + media == order[n + 1..])
              && GaveBack(old(bytes), old(count), order[..n])
    {
      ghost var order := control + media;
      var done := 0;
      while control + media != []
        invariant Covered() && closed == old(closed)
        invariant Passed(order, done, current, control + media)
        invariant GaveBack(old(bytes), old(count), order[..done])
        decreases |control| + |media|
      {
        var envelope := PopCovered();
        PassedNext(order, done, current, [envelope] + (control + media));
        if envelope.generation == current(done) {
          return Delivery(envelope);
        }
        ReleaseStale(envelope, old(bytes), old(count), order[..done]);
        done := done + 1;
      }
      PassedAll(order, done, current);
      return if controlLost && mediaLost then NoSenders else Empty;
    }

    /** Dropping the receiver closes the channel and gives back every queued charge; dispatched envelopes keep theirs. */
    method DropReceiver()
      requires Covered()
      modifies this
      ensures closed && control + media == []
      ensures forall k: Class :: bytes.Get(k) == old(bytes).Get(k) - Weight(old(control + media), k)
                              && count.Get(k) == old(count).Get(k) - Number(old(control + media), k)
    {
      closed := true;
      while control + media != []
        invariant closed && Covered()
        invariant forall k: Class ::
          bytes.Get(k) - Weight(control + media, k) == old(bytes).Get(k) - Weight(old(control + media), k)
          && count.Get(k) - Number(control + media, k) == old(count).Get(k) - Number(old(control + media), k)
        decreases |control| + |media|
      {
        ghost var rest := control + media;
        var envelope := Pop();
        assert rest == [envelope] + (control + media);
        WeightPop(envelope, control + media);
        Release(envelope);
      }
    }
  }
}
