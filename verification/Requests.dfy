/**
 In-flight requests of the data channel router: admission, response routing, chunked responses, resets, expiry and the
 drop guards of the waiting callers. The lifecycle lock is explicit, and so is the window in which a guard's drop holds
 the pending lock between removing its entry and removing its chunks.
 */
module Requests {
  import opened Common
  import Chunks

  const MAX_PENDING_REQUESTS: nat := 128

  /** A merged chunked response larger than this is refused instead of expanded. */
  const MAX_BINARY_EXPANSION_BYTES: nat := 1024 * 1024

  /** What a response to a request has to say about itself. */
  datatype Expectation = Expectation(topics: Option<seq<string>>, apiId: Option<int>)

  /** A response message: the fields that expectations look at, and the rest. */
  datatype Reply = Reply(topic: Option<string>, apiId: Option<int>, body: Bytes)

  /** A missing topic counts as the empty one; a missing api id meets no expected one. */
  predicate Accepts(x: Expectation, m: Reply) {
    && (x.topics.Some? ==> (if m.topic.Some? then m.topic.value else "") in x.topics.value)
    && (x.apiId.Some? ==> m.apiId == x.apiId)
  }

  datatype Entry = Entry(token: nat, session: nat, expectation: Expectation)

  datatype Outcome =
    | Response(session: nat, reply: Reply)
    | Failure
    | RemovedByGuard

  /** The pending map, and what each answered caller was told. */
  datatype Table = Table(pending: map<string, Entry>, outcomes: map<nat, Outcome>)

  // ---------------------------------------------------------------- operations on the table

  function Finish(t: Table, key: string, o: Outcome): Table {
    if key !in t.pending then t
    else Table(t.pending - {key}, t.outcomes[t.pending[key].token := o])
  }

  function Tokens(pending: map<string, Entry>): set<nat> {
    set k | k in pending :: pending[k].token
  }

  function Told(outcomes: map<nat, Outcome>, tokens: set<nat>): map<nat, Outcome> {
    outcomes + map token | token in tokens :: Failure
  }

  function FinishAll(t: Table): Table {
    Table(map[], Told(t.outcomes, Tokens(t.pending)))
  }

  function Verdict(e: Entry, session: nat, reply: Reply): Outcome {
    if e.session != session then Failure else if Accepts(e.expectation, reply) then Response(session, reply) else Failure
  }

  function Resolve(t: Table, key: string, session: nat, reply: Reply): Table {
    if key !in t.pending then t else Finish(t, key, Verdict(t.pending[key], session, reply))
  }

  /** The caller's own guard: it removes the entry only while the entry is still its own. */
  predicate OwnsEntry(t: Table, key: string, token: nat) {
    key in t.pending && t.pending[key].token == token
  }

  class PendingRequests {
    var pending: map<string, Entry>
    var outcomes: map<nat, Outcome>

    function Abs(): Table
      reads this
    {
      Table(pending, outcomes)
    }

    constructor ()
      ensures Abs() == Table(map[], map[])
    {
      pending, outcomes := map[], map[];
    }

    method Register(channelOpen: bool, key: string, entry: Entry) returns (result: Result<()>)
      modifies this
      ensures result.Ok? <==> channelOpen && key !in old(pending) && |old(pending)| < 128
      ensures Abs() == if result.Ok? then old(Abs()).(pending := old(pending)[key := entry]) else old(Abs())
    {
      if !channelOpen {
        return Err("Data channel is not open");
      }
      if key in pending {
        return Err("Duplicate in-flight request key: " + key);
      }
      if |pending| >= MAX_PENDING_REQUESTS {
        return Err("DataChannel in-flight request limit reached");
      }
      pending := pending[key := entry];
      return Ok(());
    }

    method ResolvePendingResponse(key: string, session: nat, reply: Reply)
      modifies this
      ensures Abs() == Resolve(old(Abs()), key, session, reply)
    {
      if key !in pending {
        return;
      }
      var callback := pending[key];
      pending := pending - {key};
      var result := if callback.session != session then Failure
                    else if Accepts(callback.expectation, reply) then Response(session, reply)
                    else Failure;
      outcomes := outcomes[callback.token := result];
    }

    method FailPending(key: string)
      modifies this
      ensures Abs() == Finish(old(Abs()), key, Failure)
    {
      if key in pending {
        var callback := pending[key];
        pending := pending - {key};
        outcomes := outcomes[callback.token := Failure];
      }
    }

    method FailAllPending()
      modifies this
      ensures Abs() == FinishAll(old(Abs()))
    {
      var callbacks := pending;
      pending := map[];
      while callbacks != map[]
        invariant pending == map[]
        invariant StillToTell(outcomes, callbacks, old(outcomes), old(pending))
        decreases |callbacks|
      {
        var key :| key in callbacks;
        StillToTellNext(outcomes, callbacks, old(outcomes), old(pending), key);
        outcomes := outcomes[callbacks[key].token := Failure];
        callbacks := callbacks - {key};
      }
      AllTold(outcomes, callbacks, old(outcomes), old(pending));
    }

    /** The pending half of a guard's drop; `owned` says whether the chunks under the key go too. */
    method DropGuard(key: string, token: nat) returns (owned: bool)
      modifies this
      ensures owned == OwnsEntry(old(Abs()), key, token)
      ensures Abs() == if owned then Finish(old(Abs()), key, RemovedByGuard) else old(Abs())
    {
      owned := key in pending && pending[key].token == token;
      if owned {
        pending := pending - {key};
        outcomes := outcomes[token := RemovedByGuard];
      }
    }
  }

  /** Telling the callbacks that are left completes what was to be told. */
  ghost predicate StillToTell(outcomes: map<nat, Outcome>, callbacks: map<string, Entry>, outcomes0: map<nat, Outcome>,
                              pending0: map<string, Entry>) {
    Told(outcomes, Tokens(callbacks)) == Told(outcomes0, Tokens(pending0))
  }

  lemma StillToTellNext(outcomes: map<nat, Outcome>, callbacks: map<string, Entry>, outcomes0: map<nat, Outcome>,
                        pending0: map<string, Entry>, key: string)
    requires StillToTell(outcomes, callbacks, outcomes0, pending0) && key in callbacks
    ensures StillToTell(outcomes[callbacks[key].token := Failure], callbacks - {key}, outcomes0, pending0)
    ensures |callbacks - {key}| < |callbacks|
  {
    assert callbacks.Keys == (callbacks - {key}).Keys + {key};
    ToldOne(outcomes, callbacks, key);
  }

  lemma AllTold(outcomes: map<nat, Outcome>, callbacks: map<string, Entry>, outcomes0: map<nat, Outcome>,
                pending0: map<string, Entry>)
    requires StillToTell(outcomes, callbacks, outcomes0, pending0) && callbacks == map[]
    ensures outcomes == Told(outcomes0, Tokens(pending0))
  {
    assert Tokens(callbacks) == {};
    assert Told(outcomes, {}) == outcomes;
  }

  lemma ToldOne(outcomes: map<nat, Outcome>, callbacks: map<string, Entry>, key: string)
    requires key in callbacks
    ensures Told(outcomes, Tokens(callbacks)) ==
            Told(outcomes[callbacks[key].token := Failure], Tokens(callbacks - {key}))
  {
    TokensWithout(callbacks, key);
  }

  lemma TokensWithout(pending: map<string, Entry>, key: string)
    requires key in pending
    ensures Tokens(pending) == Tokens(pending - {key}) + {pending[key].token}
  {
    forall t | t in Tokens(pending)
      ensures t in Tokens(pending - {key}) + {pending[key].token}
    {
      var k :| k in pending && pending[k].token == t;
      if k != key {
        assert k in pending - {key};
      }
    }
    forall t | t in Tokens(pending - {key})
      ensures t in Tokens(pending)
    {
      var k :| k in pending - {key} && (pending - {key})[k].token == t;
      assert k in pending;
    }
  }

  // ---------------------------------------------------------------- the router as a protocol

  datatype Settlement = Respond(reply: Reply) | Fail

  /** Who holds the lifecycle lock, and how far it has come. */
  datatype Lifecycle =
    | Free
    | Sending(token: nat)
    | Unwinding(token: nat)
    | Settling(key: string, how: Settlement)
    | Expiring(keys: set<string>)
    | Bumped
    | ChunksCleared
    | TimedOut

  /**
   `guards`: the live drop guards with their keys. `dropping`: the guard that holds the pending lock between its two
   removals. `admitted` is a history: the entry each request was admitted with.
   */
  datatype State = State(
    session: nat,
    lifecycle: Lifecycle,
    table: Table,
    chunks: Chunks.Transfers,
    guards: map<nat, string>,
    dropping: Option<nat>,
    nextToken: nat,
    admitted: map<nat, Entry>)

  function Initial(session: nat): State {
    State(session, Free, Table(map[], map[]), map[], map[], None, 0, map[])
  }

  datatype Step =
    | Publish(key: string, expectation: Expectation)
    | Sent
    | SendFailed
    | Unwound
    | GuardDropBegin(token: nat)
    | GuardDropEnd
    | RouteResponse(key: string, reply: Reply)
    | RouteRejection(key: string, dropsChunks: bool)
    | RouteChunk(chunk: Chunks.Chunk, reply: Reply)
    | Settle
    | Expire(now: nat)
    | ExpireOne(key: string)
    | ExpireDone
    | Bump
    | ClearChunks
    | FailAll
    | HeartbeatFail
    | HeartbeatClear

  predicate PendingLockFree(s: State) {
    s.dropping.None?
  }

  predicate CanPublish(s: State, key: string) {
    && s.lifecycle.Free? && PendingLockFree(s)
    && key !in s.table.pending && |s.table.pending| < MAX_PENDING_REQUESTS
  }

  predicate CanDropGuard(s: State, token: nat) {
    && PendingLockFree(s) && token in s.guards
    && s.lifecycle != Sending(token)
  }

  ghost predicate Enabled(s: State, step: Step) {
    match step
    case Publish(key, _) => CanPublish(s, key)
    case Sent => s.lifecycle.Sending?
    case SendFailed => s.lifecycle.Sending?
    case Unwound => s.lifecycle.Unwinding? && s.lifecycle.token !in s.guards
    case GuardDropBegin(token) => CanDropGuard(s, token)
    case GuardDropEnd => s.dropping.Some? && s.dropping.value in s.guards
    case RouteResponse(_, _) => s.lifecycle.Free?
    case RouteRejection(_, _) => s.lifecycle.Free?
    case RouteChunk(_, _) => s.lifecycle.Free?
    case Settle => s.lifecycle.Settling? && PendingLockFree(s)
    case Expire(_) => s.lifecycle.Free?
    case ExpireOne(key) => s.lifecycle.Expiring? && key in s.lifecycle.keys && PendingLockFree(s)
    case ExpireDone => s.lifecycle.Expiring? && s.lifecycle.keys == {}
    case Bump => s.lifecycle.Free?
    case ClearChunks => s.lifecycle.Bumped?
    case FailAll => s.lifecycle.ChunksCleared? && PendingLockFree(s)
    case HeartbeatFail => s.lifecycle.Free? && PendingLockFree(s)
    case HeartbeatClear => s.lifecycle.TimedOut?
  }

  /** A completed transfer answers with the last chunk's message, its payload replaced by the joined bytes. */
  ghost function ChunkSettlement(answer: Result<Option<Bytes>>, reply: Reply): Option<Settlement> {
    match answer
    case Err(_) => Some(Fail)
    case Ok(None) => None
    case Ok(Some(bytes)) =>
      Some(if |bytes| > MAX_BINARY_EXPANSION_BYTES then Fail else Respond(reply.(body := bytes)))
  }

  ghost function NextLifecycle(s: State, step: Step): Lifecycle {
    match step
    case Publish(_, _) => Sending(s.nextToken)
    case Sent => Free
    case SendFailed => if s.lifecycle.Sending? then Unwinding(s.lifecycle.token) else s.lifecycle
    case Unwound => Free
    case RouteResponse(key, reply) => Settling(key, Respond(reply))
    case RouteRejection(key, _) => Settling(key, Fail)
    case RouteChunk(c, reply) =>
      var settlement := ChunkSettlement(Chunks.Insert(s.chunks, c).1, reply);
      if settlement.None? then Free else Settling(c.key, settlement.value)
    case Settle => Free
    case Expire(now) => Expiring(Chunks.Expired(s.chunks, now))
    case ExpireOne(key) => if s.lifecycle.Expiring? then Expiring(s.lifecycle.keys - {key}) else s.lifecycle
    case ExpireDone => Free
    case Bump => Bumped
    case ClearChunks => ChunksCleared
    case FailAll => Free
    case HeartbeatFail => TimedOut
    case HeartbeatClear => Free
    case GuardDropBegin(_) => s.lifecycle
    case GuardDropEnd => s.lifecycle
  }

  function NextTable(s: State, step: Step): Table {
    match step
    case Publish(key, x) => s.table.(pending := s.table.pending[key := Entry(s.nextToken, s.session, x)])
    case GuardDropBegin(token) =>
      if token in s.guards && OwnsEntry(s.table, s.guards[token], token)
      then Finish(s.table, s.guards[token], RemovedByGuard) else s.table
    case Settle =>
      if !s.lifecycle.Settling? then s.table
      else if s.lifecycle.how.Fail? then Finish(s.table, s.lifecycle.key, Failure)
      else Resolve(s.table, s.lifecycle.key, s.session, s.lifecycle.how.reply)
    case ExpireOne(key) => Finish(s.table, key, Failure)
    case FailAll => FinishAll(s.table)
    case HeartbeatFail => FinishAll(s.table)
    case _ => s.table
  }

  ghost function NextChunks(s: State, step: Step): Chunks.Transfers {
    match step
    case GuardDropEnd =>
      if s.dropping.Some? && s.dropping.value in s.guards then s.chunks - {s.guards[s.dropping.value]} else s.chunks
    case RouteRejection(key, drops) => if drops then s.chunks - {key} else s.chunks
    case RouteChunk(c, _) => Chunks.Insert(s.chunks, c).0
    case Expire(now) => s.chunks - Chunks.Expired(s.chunks, now)
    case ClearChunks => map[]
    case HeartbeatClear => map[]
    case _ => s.chunks
  }

  function NextGuards(s: State, step: Step): map<nat, string> {
    match step
    case Publish(key, _) => s.guards[s.nextToken := key]
    case GuardDropBegin(token) =>
      if token in s.guards && OwnsEntry(s.table, s.guards[token], token) then s.guards else s.guards - {token}
    case GuardDropEnd => if s.dropping.Some? then s.guards - {s.dropping.value} else s.guards
    case _ => s.guards
  }

  function NextDropping(s: State, step: Step): Option<nat> {
    match step
    case GuardDropBegin(token) =>
      if token in s.guards && OwnsEntry(s.table, s.guards[token], token) then Some(token) else None
    case GuardDropEnd => None
    case _ => s.dropping
  }

  ghost function Next(s: State, step: Step): Option<State> {
    if !Enabled(s, step) then None
    else Some(State(
      if step.Bump? then s.session + 1 else s.session,
      NextLifecycle(s, step),
      NextTable(s, step),
      NextChunks(s, step),
      NextGuards(s, step),
      NextDropping(s, step),
      if step.Publish? then s.nextToken + 1 else s.nextToken,
      if step.Publish? then s.admitted[s.nextToken := Entry(s.nextToken, s.session, step.expectation)] else s.admitted))
  }

  ghost predicate Run(states: seq<State>, steps: seq<Step>) {
    && |states| == |steps| + 1
    && states[0] == Initial(states[0].session)
    && forall i :: 0 <= i < |steps| ==> Next(states[i], steps[i]) == Some(states[i + 1])
  }

  // ---------------------------------------------------------------- invariant

  /** A pending entry is unanswered and watched by the live guard of its own token. */
  ghost predicate Watched(t: Table, guards: map<nat, string>, nextToken: nat) {
    && |t.pending| <= MAX_PENDING_REQUESTS
    && (forall k :: k in t.pending ==>
          && t.pending[k].token < nextToken && t.pending[k].token !in t.outcomes
          && t.pending[k].token in guards && guards[t.pending[k].token] == k)
    && (forall g :: g in guards ==> g < nextToken)
  }

  /** Every admitted request is either pending or answered. */
  ghost predicate Answered(t: Table, guards: map<nat, string>, nextToken: nat) {
    && (forall token :: token in t.outcomes ==> token < nextToken)
    && (forall token: nat :: token < nextToken ==> token in t.outcomes || Waiting(t, guards, token))
  }

  ghost predicate Waiting(t: Table, guards: map<nat, string>, token: nat) {
    token in guards && OwnsEntry(t, guards[token], token)
  }

  /** Outside the middle of a bump every pending entry belongs to the current session. */
  ghost predicate EntriesCurrent(s: State) {
    && (forall k :: k in s.table.pending ==>
          s.table.pending[k].token in s.admitted && s.admitted[s.table.pending[k].token] == s.table.pending[k])
    && (!s.lifecycle.Bumped? && !s.lifecycle.ChunksCleared? ==>
          forall k :: k in s.table.pending ==> s.table.pending[k].session == s.session)
  }

  ghost predicate ResponsesCurrent(s: State) {
    forall token :: token in s.table.outcomes && s.table.outcomes[token].Response? ==>
      && token in s.admitted && s.admitted[token].session == s.table.outcomes[token].session
      && Accepts(s.admitted[token].expectation, s.table.outcomes[token].reply)
  }

  /** While a guard holds the pending lock nobody can register its key again. */
  ghost predicate DropExclusive(s: State) {
    s.dropping.Some? ==> s.dropping.value in s.guards && s.guards[s.dropping.value] !in s.table.pending
  }

  ghost predicate Inv(s: State) {
    && TableOk(s.table, s.guards, s.nextToken)
    && EntriesCurrent(s) && ResponsesCurrent(s) && DropExclusive(s)
    && (forall token :: token in s.admitted ==> token < s.nextToken)
  }

  ghost predicate TableOk(t: Table, guards: map<nat, string>, nextToken: nat) {
    Watched(t, guards, nextToken) && Answered(t, guards, nextToken)
  }

  lemma FinishKeepsTable(t: Table, guards: map<nat, string>, nextToken: nat, key: string, o: Outcome)
    requires TableOk(t, guards, nextToken)
    ensures TableOk(Finish(t, key, o), guards, nextToken)
  {
    if key in t.pending {
      assert t.pending.Keys == (t.pending - {key}).Keys + {key};
    }
  }

  lemma FinishAllKeepsTable(t: Table, guards: map<nat, string>, nextToken: nat)
    requires TableOk(t, guards, nextToken)
    ensures TableOk(FinishAll(t), guards, nextToken)
  {
    forall token: nat | token < nextToken
      ensures token in FinishAll(t).outcomes
    {
      assert Waiting(t, guards, token) ==> token in Tokens(t.pending);
    }
  }

  lemma RegisterKeepsWatched(t: Table, guards: map<nat, string>, n: nat, key: string, e: Entry)
    requires e.token == n && Watched(t, guards, n) && n !in t.outcomes
    requires key !in t.pending && |t.pending| < MAX_PENDING_REQUESTS
    ensures Watched(t.(pending := t.pending[key := e]), guards[n := key], n + 1)
  {
    var pending := t.pending[key := e];
    assert |pending| == |t.pending| + 1 by {
      assert pending.Keys == t.pending.Keys + {key};
    }
    forall k | k in pending && k != key
      ensures pending[k].token < n && pending[k].token !in t.outcomes && pending[k].token in guards
              && guards[pending[k].token] == k
    {
      assert k in t.pending;
    }
  }

  lemma RegisterKeepsAnswered(t: Table, guards: map<nat, string>, n: nat, key: string, e: Entry)
    requires e.token == n && Answered(t, guards, n) && key !in t.pending
    ensures Answered(t.(pending := t.pending[key := e]), guards[n := key], n + 1)
  {
    var t' := t.(pending := t.pending[key := e]);
    forall token: nat | token < n + 1
      ensures token in t'.outcomes || Waiting(t', guards[n := key], token)
    {
      assert token < n ==> token in t.outcomes || Waiting(t, guards, token);
    }
  }

  lemma ForgetGuardKeepsTable(t: Table, guards: map<nat, string>, nextToken: nat, token: nat)
    requires TableOk(t, guards, nextToken)
    requires token in guards && !OwnsEntry(t, guards[token], token)
    ensures TableOk(t, guards - {token}, nextToken)
  {
    forall other: nat | other < nextToken
      ensures other in t.outcomes || Waiting(t, guards - {token}, other)
    {
      assert other in t.outcomes || Waiting(t, guards, other);
    }
  }

  lemma StepKeepsTable(s: State, step: Step, s': State)
    requires TableOk(s.table, s.guards, s.nextToken) && DropExclusive(s) && Next(s, step) == Some(s')
    ensures TableOk(s'.table, s'.guards, s'.nextToken)
  {
    var t, g, n := s.table, s.guards, s.nextToken;
    match step
    case Publish(key, x) =>
      RegisterKeepsWatched(t, g, n, key, Entry(n, s.session, x));
      RegisterKeepsAnswered(t, g, n, key, Entry(n, s.session, x));
    case GuardDropBegin(token) =>
      if OwnsEntry(t, g[token], token) {
        FinishKeepsTable(t, g, n, g[token], RemovedByGuard);
      } else {
        ForgetGuardKeepsTable(t, g, n, token);
      }
    case GuardDropEnd => ForgetGuardKeepsTable(t, g, n, s.dropping.value);
    case Settle =>
      FinishKeepsTable(t, g, n, s.lifecycle.key, Failure);
      if s.lifecycle.how.Respond? {
        FinishKeepsTable(t, g, n, s.lifecycle.key, Response(s.session, s.lifecycle.how.reply));
      }
    case ExpireOne(key) => FinishKeepsTable(t, g, n, key, Failure);
    case FailAll => FinishAllKeepsTable(t, g, n);
    case HeartbeatFail => FinishAllKeepsTable(t, g, n);
    case _ =>
  }

  lemma StepShrinksPending(s: State, step: Step, s': State)
    requires Next(s, step) == Some(s') && !step.Publish?
    ensures forall k :: k in s'.table.pending ==> k in s.table.pending && s'.table.pending[k] == s.table.pending[k]
    ensures s'.admitted == s.admitted
  {
    assert s'.table == NextTable(s, step);
  }

  lemma StepKeepsEntries(s: State, step: Step, s': State)
    requires EntriesCurrent(s) && Watched(s.table, s.guards, s.nextToken) && Next(s, step) == Some(s')
    ensures EntriesCurrent(s')
  {
    if step.Publish? {
      assert s'.table == NextTable(s, step);
      forall k | k in s'.table.pending
        ensures s'.table.pending[k].token in s'.admitted && s'.admitted[s'.table.pending[k].token] == s'.table.pending[k]
      {
        assert k == step.key || (k in s.table.pending && s.table.pending[k].token < s.nextToken);
      }
    } else {
      StepShrinksPending(s, step, s');
      if step.FailAll? {
        assert s'.table == FinishAll(s.table);
      }
    }
  }

  /** A response some caller has been told was told before, or is the verdict of this very step. */
  lemma ResponseOrigin(s: State, step: Step, s': State, token: nat)
    requires Next(s, step) == Some(s') && token in s'.table.outcomes && s'.table.outcomes[token].Response?
    ensures || (token in s.table.outcomes && s.table.outcomes[token] == s'.table.outcomes[token])
            || (&& step.Settle? && s.lifecycle.Settling? && s.lifecycle.key in s.table.pending
                && s.lifecycle.how.Respond? && s.table.pending[s.lifecycle.key].token == token
                && s'.table.outcomes[token] == Verdict(s.table.pending[s.lifecycle.key], s.session, s.lifecycle.how.reply))
  {
    assert s'.table == NextTable(s, step);
  }

  lemma StepKeepsResponses(s: State, step: Step, s': State)
    requires ResponsesCurrent(s) && EntriesCurrent(s) && Watched(s.table, s.guards, s.nextToken)
    requires forall token :: token in s.admitted ==> token < s.nextToken
    requires Next(s, step) == Some(s')
    ensures ResponsesCurrent(s')
    ensures forall token :: token in s'.admitted ==> token < s'.nextToken
  {
    forall token | token in s'.table.outcomes && s'.table.outcomes[token].Response?
      ensures token in s'.admitted && s'.admitted[token].session == s'.table.outcomes[token].session
      ensures Accepts(s'.admitted[token].expectation, s'.table.outcomes[token].reply)
    {
      ResponseOrigin(s, step, s', token);
      assert token in s.admitted && token < s.nextToken;
      assert s'.admitted[token] == s.admitted[token];
    }
  }

  lemma StepKeepsDrop(s: State, step: Step, s': State)
    requires DropExclusive(s) && Next(s, step) == Some(s')
    ensures DropExclusive(s')
  {
    assert s'.table == NextTable(s, step) && s'.guards == NextGuards(s, step) && s'.dropping == NextDropping(s, step);
  }

  lemma StepKeepsInv(s: State, step: Step, s': State)
    requires Inv(s) && Next(s, step) == Some(s')
    ensures Inv(s')
  {
    StepKeepsTable(s, step, s');
    StepKeepsEntries(s, step, s');
    StepKeepsResponses(s, step, s');
    StepKeepsDrop(s, step, s');
  }

  lemma InvHoldsOverEveryRun(states: seq<State>, steps: seq<Step>)
    requires Run(states, steps)
    ensures forall n :: 0 <= n < |states| ==> Inv(states[n])
  {
    for n := 0 to |steps|
      invariant forall i :: 0 <= i <= n ==> Inv(states[i])
    {
      StepKeepsInv(states[n], steps[n], states[n + 1]);
    }
  }

  /** The chunk budgets hold in every state of the router, whatever guards, resets and expiries do in between. */
  lemma ChunksStayWithinBudgets(states: seq<State>, steps: seq<Step>)
    requires Run(states, steps)
    ensures forall n :: 0 <= n < |states| ==> Chunks.Valid(states[n].chunks)
  {
    Chunks.EmptyIsValid();
    for n := 0 to |steps|
      invariant forall i :: 0 <= i <= n ==> Chunks.Valid(states[i].chunks)
    {
      StepKeepsChunks(states[n], steps[n], states[n + 1]);
    }
  }

  /** A step inserts one chunk, or takes away transfers, possibly none. */
  lemma ChunkMoves(s: State, step: Step, s': State) returns (gone: set<string>)
    requires Next(s, step) == Some(s')
    ensures if step.RouteChunk? then s'.chunks == Chunks.Insert(s.chunks, step.chunk).0 else s'.chunks == s.chunks - gone
  {
    gone := {};
    match step
    case GuardDropEnd => gone := {s.guards[s.dropping.value]};
    case RouteRejection(key, drops) => gone := if drops then {key} else {};
    case Expire(now) => gone := Chunks.Expired(s.chunks, now);
    case ClearChunks => gone := s.chunks.Keys;
    case HeartbeatClear => gone := s.chunks.Keys;
    case _ =>
  }

  lemma StepKeepsChunks(s: State, step: Step, s': State)
    requires Chunks.Valid(s.chunks) && Next(s, step) == Some(s')
    ensures Chunks.Valid(s'.chunks)
  {
    var gone := ChunkMoves(s, step, s');
    if step.RouteChunk? {
      Chunks.InsertKeepsValid(s.chunks, step.chunk);
    } else {
      Chunks.RemovalKeepsValid(s.chunks, gone);
    }
  }

  // ---------------------------------------------------------------- what callers and the router can rely on

  lemma StepKeepsOutcomes(s: State, step: Step, s': State)
    requires Watched(s.table, s.guards, s.nextToken) && Next(s, step) == Some(s')
    ensures forall t :: t in s.table.outcomes ==> t in s'.table.outcomes && s'.table.outcomes[t] == s.table.outcomes[t]
    ensures s.nextToken <= s'.nextToken
  {
    assert s'.table == NextTable(s, step);
  }

  lemma OutcomesAreFinal(states: seq<State>, steps: seq<Step>, m: nat, n: nat)
    requires Run(states, steps) && m <= n < |states|
    ensures forall t :: t in states[m].table.outcomes ==>
              t in states[n].table.outcomes && states[n].table.outcomes[t] == states[m].table.outcomes[t]
    ensures states[m].nextToken <= states[n].nextToken
  {
    InvHoldsOverEveryRun(states, steps);
    for k := m to n
      invariant forall t :: t in states[m].table.outcomes ==>
                  t in states[k].table.outcomes && states[k].table.outcomes[t] == states[m].table.outcomes[t]
      invariant states[m].nextToken <= states[k].nextToken
    {
      assert Inv(states[k]);
      StepKeepsOutcomes(states[k], steps[k], states[k + 1]);
    }
  }

  /**
   A request admitted at step `m` is, at every later point, either pending under its live guard or answered, never
   both; once answered its answer never changes; and when its guard is gone it has been answered. At most 128 requests
   are pending.
   */
  lemma EveryRequestGetsExactlyOneOutcome(states: seq<State>, steps: seq<Step>, m: nat, n: nat, later: nat)
    requires Run(states, steps) && m < n <= later < |states| && steps[m].Publish?
    ensures var token := states[m].nextToken; var t := states[n].table;
            && |t.pending| <= 128
            && (token in t.outcomes <==> !Waiting(t, states[n].guards, token))
            && (token !in states[n].guards ==> token in t.outcomes)
            && (token in t.outcomes ==>
                  token in states[later].table.outcomes && states[later].table.outcomes[token] == t.outcomes[token])
  {
    InvHoldsOverEveryRun(states, steps);
    assert Inv(states[n]);
    assert Next(states[m], steps[m]) == Some(states[m + 1]);
    OutcomesAreFinal(states, steps, m + 1, n);
    OutcomesAreFinal(states, steps, n, later);
    var token := states[m].nextToken;
    assert token in states[n].table.outcomes || Waiting(states[n].table, states[n].guards, token);
  }

  /** Whenever a response is routed, the entry it finds belongs to the current session: the stale branch is dead code. */
  lemma StaleResponseBranchIsUnreachable(states: seq<State>, steps: seq<Step>, n: nat)
    requires Run(states, steps) && n < |steps| && steps[n].Settle?
    requires states[n].lifecycle.Settling? && states[n].lifecycle.key in states[n].table.pending
    ensures states[n].table.pending[states[n].lifecycle.key].session == states[n].session
  {
    InvHoldsOverEveryRun(states, steps);
    assert Inv(states[n]);
    assert EntriesCurrent(states[n]);
  }

  /** A response reaches a caller only in the session its request was admitted in, and only if it is what was expected. */
  lemma ResponseArrivesInItsOwnSession(states: seq<State>, steps: seq<Step>, n: nat, token: nat)
    requires Run(states, steps) && n < |states|
    requires token in states[n].table.outcomes && states[n].table.outcomes[token].Response?
    ensures token in states[n].admitted && states[n].table.outcomes[token].session == states[n].admitted[token].session
    ensures Accepts(states[n].admitted[token].expectation, states[n].table.outcomes[token].reply)
  {
    InvHoldsOverEveryRun(states, steps);
    assert Inv(states[n]);
    assert ResponsesCurrent(states[n]);
  }

  /**
   A guard's drop takes away no entry but its own, and the chunks it removes are under a key nobody has registered: an
   old guard never removes a replacement's entry or chunks.
   */
  lemma GuardDropIsLocal(states: seq<State>, steps: seq<Step>, n: nat)
    requires Run(states, steps) && n < |steps| && (steps[n].GuardDropBegin? || steps[n].GuardDropEnd?)
    ensures forall k ::
              (k in states[n].table.pending
               && (steps[n].GuardDropBegin? ==> states[n].table.pending[k].token != steps[n].token))
              ==> k in states[n + 1].table.pending && states[n + 1].table.pending[k] == states[n].table.pending[k]
    ensures forall k :: k in states[n].chunks && k in states[n].table.pending ==>
              k in states[n + 1].chunks && states[n + 1].chunks[k] == states[n].chunks[k]
    ensures steps[n].GuardDropBegin? && steps[n].token in states[n].table.outcomes ==>
              states[n + 1].table == states[n].table && states[n + 1].chunks == states[n].chunks
              && steps[n].token !in states[n + 1].guards
  {
    InvHoldsOverEveryRun(states, steps);
    assert Inv(states[n]) && Next(states[n], steps[n]) == Some(states[n + 1]);
    if steps[n].GuardDropBegin? {
      GuardDropBeginIsLocal(states[n], steps[n].token, states[n + 1]);
    } else {
      GuardDropEndIsLocal(states[n], states[n + 1]);
    }
  }

  lemma GuardDropBeginIsLocal(s: State, token: nat, s': State)
    requires Next(s, GuardDropBegin(token)) == Some(s') && Watched(s.table, s.guards, s.nextToken)
    ensures s'.chunks == s.chunks
    ensures forall k :: k in s.table.pending && s.table.pending[k].token != token ==>
              k in s'.table.pending && s'.table.pending[k] == s.table.pending[k]
    ensures token in s.table.outcomes ==> s'.table == s.table && token !in s'.guards
  {
    assert s'.table == NextTable(s, GuardDropBegin(token));
  }

  lemma GuardDropEndIsLocal(s: State, s': State)
    requires Next(s, GuardDropEnd) == Some(s') && DropExclusive(s)
    ensures s'.table == s.table
    ensures forall k :: k in s.chunks && k in s.table.pending ==> k in s'.chunks && s'.chunks[k] == s.chunks[k]
  {
    assert s'.chunks == NextChunks(s, GuardDropEnd);
  }

  // ---------------------------------------------------------------- who is told what, and when

  /** The reply is what the request asked for: one of its topics, if it named any, and its api id, if it named one. */
  predicate Wanted(e: Entry, reply: Reply) {
    && (e.expectation.topics.None?
        || (reply.topic.Some? && reply.topic.value in e.expectation.topics.value)
        || (reply.topic.None? && "" in e.expectation.topics.value))
    && (e.expectation.apiId.None? || (reply.apiId.Some? && reply.apiId.value == e.expectation.apiId.value))
  }

  /** Settling a reply tells the caller under that key the reply itself when it is wanted, and a failure otherwise. */
  lemma SettledReplyIsTold(states: seq<State>, steps: seq<Step>, n: nat, key: string, reply: Reply)
    requires Run(states, steps) && n < |steps| && steps[n].Settle?
    requires states[n].lifecycle == Settling(key, Respond(reply)) && key in states[n].table.pending
    ensures var e := states[n].table.pending[key];
            && e.token in states[n].admitted && states[n].admitted[e.token] == e
            && key !in states[n + 1].table.pending && e.token in states[n + 1].table.outcomes
            && states[n + 1].table.outcomes[e.token] == if Wanted(e, reply) then Response(states[n].session, reply) else Failure
  {
    LawsAt(states, steps, n);
    assert states[n + 1].table == Resolve(states[n].table, key, states[n].session, reply) by {
      assert Next(states[n], steps[n]) == Some(states[n + 1]);
    }
    VerdictByFields(states[n].table.pending[key], states[n].session, reply);
  }

  lemma VerdictByFields(e: Entry, session: nat, reply: Reply)
    requires e.session == session
    ensures Verdict(e, session, reply) == if Wanted(e, reply) then Response(session, reply) else Failure
  {
  }

  lemma LawsAt(states: seq<State>, steps: seq<Step>, n: nat)
    requires Run(states, steps) && n < |states|
    ensures EntriesCurrent(states[n]) && Watched(states[n].table, states[n].guards, states[n].nextToken)
  {
    InvHoldsOverEveryRun(states, steps);
    assert Inv(states[n]);
  }

  lemma SettledFailureIsTold(states: seq<State>, steps: seq<Step>, n: nat, key: string)
    requires Run(states, steps) && n < |steps| && steps[n].Settle?
    requires states[n].lifecycle == Settling(key, Fail) && key in states[n].table.pending
    ensures var e := states[n].table.pending[key];
            key !in states[n + 1].table.pending && e.token in states[n + 1].table.outcomes
            && states[n + 1].table.outcomes[e.token] == Failure
  {
    assert Next(states[n], steps[n]) == Some(states[n + 1]);
    assert states[n + 1].table == NextTable(states[n], steps[n]);
  }

  /** What routing a message decides under the lock: its own reply, the joined chunks, or a failure. */
  lemma RoutingDecides(states: seq<State>, steps: seq<Step>, m: nat)
    requires Run(states, steps) && m < |steps|
    ensures steps[m].RouteResponse? ==> states[m + 1].lifecycle == Settling(steps[m].key, Respond(steps[m].reply))
    ensures steps[m].RouteRejection? ==> states[m + 1].lifecycle == Settling(steps[m].key, Fail)
    ensures steps[m].RouteChunk? ==>
              match Chunks.Insert(states[m].chunks, steps[m].chunk).1
              case Err(_) => states[m + 1].lifecycle == Settling(steps[m].chunk.key, Fail)
              case Ok(None) => states[m + 1].lifecycle.Free?
              case Ok(Some(joined)) =>
                states[m + 1].lifecycle == Settling(steps[m].chunk.key,
                                                    if |joined| > 1024 * 1024 then Fail else Respond(steps[m].reply.(body := joined)))
  {
    assert Next(states[m], steps[m]) == Some(states[m + 1]);
    assert states[m + 1].lifecycle == NextLifecycle(states[m], steps[m]);
  }

  /** A decision stands until it is settled: only guards act in between. */
  lemma DecisionStands(states: seq<State>, steps: seq<Step>, m: nat, n: nat)
    requires Run(states, steps) && m <= n < |states| && states[m].lifecycle.Settling?
    requires forall j :: m <= j < n ==> !steps[j].Settle?
    ensures states[n].lifecycle == states[m].lifecycle
  {
    for j := m to n
      invariant states[j].lifecycle == states[m].lifecycle
    {
      assert Next(states[j], steps[j]) == Some(states[j + 1]);
      assert Enabled(states[j], steps[j]) && states[j + 1].lifecycle == NextLifecycle(states[j], steps[j]);
    }
  }

  /** A routed reply reaches the caller that is pending under its key when it is settled. */
  lemma RoutedReplyReachesCaller(states: seq<State>, steps: seq<Step>, m: nat, n: nat, key: string, reply: Reply)
    requires Run(states, steps) && m < n < |steps| && steps[m] == RouteResponse(key, reply) && steps[n].Settle?
    requires (forall j :: m < j < n ==> !steps[j].Settle?) && key in states[n].table.pending
    ensures var e := states[n].table.pending[key];
            && e.token in states[n + 1].table.outcomes
            && states[n + 1].table.outcomes[e.token] == if Wanted(e, reply) then Response(states[n].session, reply) else Failure
  {
    RoutingDecides(states, steps, m);
    DecisionStands(states, steps, m + 1, n);
    SettledReplyIsTold(states, steps, n, key, reply);
  }

  /** A chunk that completes its transfer brings the caller the joined bytes, if they may be expanded at all. */
  lemma JoinedChunksReachCaller(states: seq<State>, steps: seq<Step>, m: nat, n: nat, c: Chunks.Chunk, reply: Reply, joined: Bytes)
    requires Run(states, steps) && m < n < |steps| && steps[m] == RouteChunk(c, reply) && steps[n].Settle?
    requires Chunks.Insert(states[m].chunks, c).1 == Ok(Some(joined)) && |joined| <= 1024 * 1024
    requires (forall j :: m < j < n ==> !steps[j].Settle?) && c.key in states[n].table.pending
    ensures var e := states[n].table.pending[c.key];
            && e.token in states[n + 1].table.outcomes
            && states[n + 1].table.outcomes[e.token]
               == if Wanted(e, reply) then Response(states[n].session, reply.(body := joined)) else Failure
  {
    RoutingDecides(states, steps, m);
    DecisionStands(states, steps, m + 1, n);
    SettledReplyIsTold(states, steps, n, c.key, reply.(body := joined));
  }

  /** Step n takes the entry under k from the table. */
  predicate Ends(s: State, step: Step, k: string) {
    && k in s.table.pending
    && (|| (step.Settle? && s.lifecycle.Settling? && s.lifecycle.key == k)
        || step == ExpireOne(k) || step.FailAll? || step.HeartbeatFail?
        || step == GuardDropBegin(s.table.pending[k].token))
  }

  /** A pending entry leaves the table exactly by a settlement, an expiry, a reset, a lost heartbeat or its own guard. */
  lemma EntryLeavesExactlyWhen(states: seq<State>, steps: seq<Step>, n: nat, k: string)
    requires Run(states, steps) && n < |steps| && k in states[n].table.pending
    ensures Ends(states[n], steps[n], k) <==> k !in states[n + 1].table.pending
    ensures k in states[n + 1].table.pending ==> states[n + 1].table.pending[k] == states[n].table.pending[k]
    ensures (Ends(states[n], steps[n], k) && !steps[n].Settle?) ==>
              && states[n].table.pending[k].token in states[n + 1].table.outcomes
              && states[n + 1].table.outcomes[states[n].table.pending[k].token]
                 == if steps[n].GuardDropBegin? then RemovedByGuard else Failure
  {
    LawsAt(states, steps, n);
    assert Next(states[n], steps[n]) == Some(states[n + 1]);
    EntryStep(states[n], steps[n], states[n + 1], k);
  }

  lemma EntryStep(s: State, step: Step, s': State, k: string)
    requires Watched(s.table, s.guards, s.nextToken) && Next(s, step) == Some(s') && k in s.table.pending
    ensures EntryFate(s, step, s'.table, k)
  {
    assert Enabled(s, step) && s'.table == NextTable(s, step);
    if step.GuardDropBegin? {
      GuardEntryStep(s, step.token, k);
    } else if step.Settle? {
      SettleEntryStep(s, k);
    } else if step.FailAll? || step.HeartbeatFail? || step.ExpireOne? {
      SweepEntryStep(s, step, k);
    } else {
      EntryStays(s, step, k);
    }
  }

  lemma SweepEntryStep(s: State, step: Step, k: string)
    requires Enabled(s, step) && k in s.table.pending && (step.FailAll? || step.HeartbeatFail? || step.ExpireOne?)
    ensures EntryFate(s, step, NextTable(s, step), k)
  {
    if step.ExpireOne? {
      OneFinished(s.table, step.key, Failure, k);
    } else {
      AllFinished(s.table, k);
    }
  }

  /** What a step does to the entry under k: it goes exactly when the step ends it, and then its caller is told. */
  ghost predicate EntryFate(s: State, step: Step, t: Table, k: string)
    requires k in s.table.pending
  {
    && (Ends(s, step, k) <==> k !in t.pending)
    && (k in t.pending ==> t.pending[k] == s.table.pending[k])
    && (Ends(s, step, k) && !step.Settle? ==>
          && s.table.pending[k].token in t.outcomes
          && t.outcomes[s.table.pending[k].token] == if step.GuardDropBegin? then RemovedByGuard else Failure)
  }

  lemma GuardEntryStep(s: State, token: nat, k: string)
    requires Watched(s.table, s.guards, s.nextToken) && Enabled(s, GuardDropBegin(token)) && k in s.table.pending
    ensures EntryFate(s, GuardDropBegin(token), NextTable(s, GuardDropBegin(token)), k)
  {
    if OwnsEntry(s.table, s.guards[token], token) {
      OneFinished(s.table, s.guards[token], RemovedByGuard, k);
    }
  }

  lemma SettleEntryStep(s: State, k: string)
    requires Enabled(s, Settle) && k in s.table.pending
    ensures EntryFate(s, Settle, NextTable(s, Settle), k)
  {
    OneFinished(s.table, s.lifecycle.key, Failure, k);
    if s.lifecycle.how.Respond? {
      OneFinished(s.table, s.lifecycle.key, Response(s.session, s.lifecycle.how.reply), k);
    }
  }

  lemma EntryStays(s: State, step: Step, k: string)
    requires Enabled(s, step) && k in s.table.pending && !step.FailAll? && !step.HeartbeatFail? && !step.ExpireOne?
    requires !step.GuardDropBegin? && !step.Settle?
    ensures EntryFate(s, step, NextTable(s, step), k)
  {
  }

  lemma AllFinished(t: Table, k: string)
    requires k in t.pending
    ensures FinishAll(t).pending == map[]
    ensures t.pending[k].token in FinishAll(t).outcomes && FinishAll(t).outcomes[t.pending[k].token] == Failure
  {
    assert t.pending[k].token in Tokens(t.pending);
  }

  lemma OneFinished(t: Table, key: string, o: Outcome, k: string)
    requires k in t.pending
    ensures k in Finish(t, key, o).pending <==> k != key
    ensures k != key ==> Finish(t, key, o).pending[k] == t.pending[k]
    ensures k == key ==> t.pending[k].token in Finish(t, key, o).outcomes && Finish(t, key, o).outcomes[t.pending[k].token] == o
  {
  }

  /** A publication is admitted exactly when nobody holds the locks, its key is free and fewer than 128 are pending. */
  lemma PublishedExactlyWhen(s: State, key: string, x: Expectation)
    ensures Next(s, Publish(key, x)).Some? <==>
              s.lifecycle.Free? && s.dropping.None? && key !in s.table.pending && |s.table.pending| < 128
    ensures Next(s, Publish(key, x)).Some? ==>
              var s' := Next(s, Publish(key, x)).value;
              && s'.table.pending == s.table.pending[key := Entry(s.nextToken, s.session, x)]
              && s'.table.outcomes == s.table.outcomes && s'.guards == s.guards[s.nextToken := key]
              && s'.lifecycle == Sending(s.nextToken)
  {
  }

  /** A reset leaves no chunks, moves the session by one and, in the end, tells everyone. */
  lemma ResetStepsTakeEffect(states: seq<State>, steps: seq<Step>, n: nat)
    requires Run(states, steps) && n < |steps|
    ensures states[n + 1].session == if steps[n].Bump? then states[n].session + 1 else states[n].session
    ensures steps[n].ClearChunks? || steps[n].HeartbeatClear? ==> states[n + 1].chunks == map[]
    ensures steps[n].FailAll? || steps[n].HeartbeatFail? ==> states[n + 1].table.pending == map[]
  {
    assert Next(states[n], steps[n]) == Some(states[n + 1]);
  }

  /** A guard that owned its entry, and a rejection that says so, leave no chunks under their key. */
  lemma ChunksGoWithTheirRequest(states: seq<State>, steps: seq<Step>, n: nat)
    requires Run(states, steps) && n < |steps|
    ensures steps[n].GuardDropBegin? ==>
              && steps[n].token in states[n].guards
              && (OwnsEntry(states[n].table, states[n].guards[steps[n].token], steps[n].token) ==>
                    states[n + 1].dropping == Some(steps[n].token))
    ensures steps[n].GuardDropEnd? ==>
              && states[n].dropping.Some? && states[n].dropping.value in states[n].guards
              && states[n + 1].chunks == states[n].chunks - {states[n].guards[states[n].dropping.value]}
              && states[n + 1].dropping.None? && states[n].dropping.value !in states[n + 1].guards
    ensures steps[n].RouteRejection? ==>
              states[n + 1].chunks == if steps[n].dropsChunks then states[n].chunks - {steps[n].key} else states[n].chunks
    ensures steps[n].RouteChunk? ==> states[n + 1].chunks == Chunks.Insert(states[n].chunks, steps[n].chunk).0
  {
    assert Next(states[n], steps[n]) == Some(states[n + 1]);
    assert states[n + 1].chunks == NextChunks(states[n], steps[n]);
  }

  /** A request that could not be sent keeps the lock until its own guard is gone, and is answered by then. */
  lemma UnsentRequestIsRemoved(states: seq<State>, steps: seq<Step>, n: nat)
    requires Run(states, steps) && n < |steps|
    ensures steps[n].SendFailed? ==>
              states[n].lifecycle.Sending? && states[n + 1].lifecycle == Unwinding(states[n].lifecycle.token)
    ensures steps[n].Sent? ==> states[n].lifecycle.Sending? && states[n + 1].lifecycle.Free?
    ensures steps[n].Unwound? ==> states[n].lifecycle.Unwinding? && states[n].lifecycle.token !in states[n].guards
    ensures steps[n].Unwound? && states[n].lifecycle.token < states[n].nextToken ==>
              states[n].lifecycle.token in states[n].table.outcomes
  {
    InvHoldsOverEveryRun(states, steps);
    assert Inv(states[n]) && Next(states[n], steps[n]) == Some(states[n + 1]);
    assert Answered(states[n].table, states[n].guards, states[n].nextToken);
  }

  // ---------------------------------------------------------------- expired chunks fail their callers

  ghost predicate FailedOrDue(s: State, key: string, e: Entry) {
    || (s.lifecycle.Expiring? && key in s.lifecycle.keys && key in s.table.pending && s.table.pending[key] == e)
    || (e.token in s.table.outcomes && s.table.outcomes[e.token] == Failure)
  }

  /** A caller whose chunks are due at an expiry is told a failure before the expiry ends, unless its own guard is first. */
  lemma DueCallerIsFailed(states: seq<State>, steps: seq<Step>, m: nat, n: nat, now: nat, key: string)
    requires Run(states, steps) && m < n < |steps| && steps[m] == Expire(now) && steps[n].ExpireDone?
    requires key in states[m].table.pending && key in states[m].chunks && states[m].chunks[key].deadline <= now
    requires forall j :: m < j < n ==> !steps[j].ExpireDone? && steps[j] != GuardDropBegin(states[m].table.pending[key].token)
    ensures key !in states[m + 1].chunks
    ensures var token := states[m].table.pending[key].token;
            token in states[n].table.outcomes && states[n].table.outcomes[token] == Failure
  {
    var e := states[m].table.pending[key];
    assert Next(states[m], steps[m]) == Some(states[m + 1]);
    ExpiryBegins(states[m], now, states[m + 1], key);
    for j := m + 1 to n
      invariant states[j].lifecycle.Expiring? && FailedOrDue(states[j], key, e)
    {
      LawsAt(states, steps, j);
      assert Next(states[j], steps[j]) == Some(states[j + 1]);
      ExpiringStep(states[j], steps[j], states[j + 1], key, e);
    }
    assert Next(states[n], steps[n]) == Some(states[n + 1]);
    assert states[n].lifecycle.keys == {};
  }

  lemma ExpiryBegins(s: State, now: nat, s': State, key: string)
    requires Next(s, Expire(now)) == Some(s') && key in s.table.pending && key in s.chunks && s.chunks[key].deadline <= now
    ensures s'.lifecycle.Expiring? && FailedOrDue(s', key, s.table.pending[key]) && key !in s'.chunks
  {
  }

  lemma ExpiringStep(s: State, step: Step, s': State, key: string, e: Entry)
    requires Watched(s.table, s.guards, s.nextToken) && Next(s, step) == Some(s')
    requires s.lifecycle.Expiring? && FailedOrDue(s, key, e) && !step.ExpireDone? && step != GuardDropBegin(e.token)
    ensures s'.lifecycle.Expiring? && FailedOrDue(s', key, e)
  {
    StepKeepsOutcomes(s, step, s');
    assert s'.lifecycle == NextLifecycle(s, step);
    if key in s.table.pending {
      EntryStep(s, step, s', key);
    }
  }

  // ---------------------------------------------------------------- nobody waits for the locks forever

  ghost predicate Leads(states: seq<State>, steps: seq<Step>, s: State, s': State) {
    && |states| == |steps| + 1 && states[0] == s && states[|steps|] == s'
    && forall i :: 0 <= i < |steps| ==> Next(states[i], steps[i]) == Some(states[i + 1])
  }

  /** Some steps lead from one state to the other. */
  ghost predicate Reaches(s: State, s': State) {
    exists states, steps :: Leads(states, steps, s, s')
  }

  lemma ReachesSelf(s: State)
    ensures Reaches(s, s)
  {
    assert Leads([s], [], s, s);
  }

  lemma Perform(s0: State, s: State, step: Step) returns (s': State)
    requires Reaches(s0, s) && Enabled(s, step)
    ensures Next(s, step) == Some(s') && Reaches(s0, s')
  {
    s' := Next(s, step).value;
    var states, steps :| Leads(states, steps, s0, s);
    assert Leads(states + [s'], steps + [step], s0, s');
  }

  /** A free lifecycle lock, with the pending lock free too, admits every kind of message, reset and timeout. */
  lemma FreeLockAdmits(s: State, key: string, reply: Reply, c: Chunks.Chunk, drops: bool, now: nat)
    requires s.lifecycle.Free?
    ensures Next(s, RouteResponse(key, reply)).Some? && Next(s, RouteRejection(key, drops)).Some?
    ensures Next(s, RouteChunk(c, reply)).Some? && Next(s, Expire(now)).Some? && Next(s, Bump).Some?
    ensures s.dropping.None? ==> Next(s, HeartbeatFail).Some?
  {
    assert Enabled(s, RouteResponse(key, reply)) && Enabled(s, RouteRejection(key, drops));
    assert Enabled(s, RouteChunk(c, reply)) && Enabled(s, Expire(now)) && Enabled(s, Bump);
  }

  /** A guard can drop at any time but while its own request is being sent or another guard holds the pending lock. */
  lemma GuardCanDrop(s: State, token: nat)
    requires token in s.guards && s.dropping.None? && s.lifecycle != Sending(token)
    ensures Next(s, GuardDropBegin(token)).Some?
  {
  }

  lemma PendingLockCanBeFreed(s0: State, s: State) returns (s': State)
    requires Reaches(s0, s) && DropExclusive(s)
    ensures Reaches(s0, s') && s'.dropping.None? && s'.lifecycle == s.lifecycle && s'.table == s.table
    ensures forall g :: g in s'.guards ==> g in s.guards
  {
    s' := s;
    if s.dropping.Some? {
      s' := Perform(s0, s, GuardDropEnd);
    }
  }

  lemma {:induction false} ExpiryCanEnd(s0: State, s: State) returns (s': State)
    requires Reaches(s0, s) && s.lifecycle.Expiring? && s.dropping.None?
    ensures Reaches(s0, s') && s'.lifecycle.Free? && s'.dropping.None?
    decreases |s.lifecycle.keys|
  {
    if s.lifecycle.keys == {} {
      s' := Perform(s0, s, ExpireDone);
    } else {
      var key :| key in s.lifecycle.keys;
      var s1 := Perform(s0, s, ExpireOne(key));
      s' := ExpiryCanEnd(s0, s1);
    }
  }

  lemma UnwindingCanEnd(s0: State, s: State) returns (s': State)
    requires Reaches(s0, s) && s.lifecycle.Unwinding? && s.dropping.None?
    ensures Reaches(s0, s') && s'.lifecycle.Free?
  {
    var token, s1 := s.lifecycle.token, s;
    if token in s.guards {
      s1 := Perform(s0, s, GuardDropBegin(token));
      if s1.dropping.Some? {
        s1 := Perform(s0, s1, GuardDropEnd);
      }
    }
    s' := Perform(s0, s1, Unwound);
  }

  lemma ResetCanEnd(s0: State, s: State) returns (s': State)
    requires Reaches(s0, s) && (s.lifecycle.Bumped? || s.lifecycle.ChunksCleared?) && s.dropping.None?
    ensures Reaches(s0, s') && s'.lifecycle.Free?
  {
    var s1 := s;
    if s.lifecycle.Bumped? {
      s1 := Perform(s0, s, ClearChunks);
    }
    s' := Perform(s0, s1, FailAll);
  }

  lemma LockCanBeReleased(s: State) returns (s': State)
    requires DropExclusive(s)
    ensures Reaches(s, s') && s'.lifecycle.Free?
  {
    ReachesSelf(s);
    var s1 := PendingLockCanBeFreed(s, s);
    match s1.lifecycle
    case Free => s' := s1;
    case Sending(_) => s' := Perform(s, s1, Sent);
    case Unwinding(_) => s' := UnwindingCanEnd(s, s1);
    case Settling(_, _) => s' := Perform(s, s1, Settle);
    case Expiring(_) => s' := ExpiryCanEnd(s, s1);
    case Bumped => s' := ResetCanEnd(s, s1);
    case ChunksCleared => s' := ResetCanEnd(s, s1);
    case TimedOut => s' := Perform(s, s1, HeartbeatClear);
  }

  /** In every state of every run the lifecycle lock can be released. */
  lemma LockCanAlwaysBeReleased(states: seq<State>, steps: seq<Step>, n: nat) returns (s': State)
    requires Run(states, steps) && n < |states|
    ensures Reaches(states[n], s') && s'.lifecycle.Free?
  {
    InvHoldsOverEveryRun(states, steps);
    assert Inv(states[n]);
    s' := LockCanBeReleased(states[n]);
  }

  /** A request can be admitted, sent, answered and told its reply. */
  lemma RequestCanSucceed(s: State, key: string, x: Expectation, reply: Reply)
    returns (s1: State, s2: State, s3: State, s4: State)
    requires s.lifecycle.Free? && s.dropping.None? && key !in s.table.pending && |s.table.pending| < 128
    requires Wanted(Entry(s.nextToken, s.session, x), reply)
    ensures Next(s, Publish(key, x)) == Some(s1) && Next(s1, Sent) == Some(s2)
    ensures Next(s2, RouteResponse(key, reply)) == Some(s3) && Next(s3, Settle) == Some(s4)
    ensures s4.table.outcomes == s.table.outcomes[s.nextToken := Response(s.session, reply)] && s4.table.pending == s.table.pending
  {
    s1 := Next(s, Publish(key, x)).value;
    s2 := Next(s1, Sent).value;
    s3 := Next(s2, RouteResponse(key, reply)).value;
    s4 := SettleTells(s3, key, reply);
    assert s.table.pending[key := Entry(s.nextToken, s.session, x)] - {key} == s.table.pending;
  }

  lemma SettleTells(s: State, key: string, reply: Reply) returns (s': State)
    requires s.lifecycle == Settling(key, Respond(reply)) && s.dropping.None? && key in s.table.pending
    requires s.table.pending[key].session == s.session && Wanted(s.table.pending[key], reply)
    ensures Next(s, Settle) == Some(s')
    ensures s'.table == Table(s.table.pending - {key}, s.table.outcomes[s.table.pending[key].token := Response(s.session, reply)])
  {
    VerdictByFields(s.table.pending[key], s.session, reply);
    s' := Next(s, Settle).value;
  }

  /** Publishing, routing, expiring, resetting and timing out exclude each other. */
  lemma LifecycleSectionsExclude(states: seq<State>, steps: seq<Step>, n: nat)
    requires Run(states, steps) && n < |steps|
    ensures (steps[n].Publish? || steps[n].RouteResponse? || steps[n].RouteRejection? || steps[n].RouteChunk?
             || steps[n].Expire? || steps[n].Bump? || steps[n].HeartbeatFail?) ==> states[n].lifecycle.Free?
    ensures (steps[n].Publish? || steps[n].Settle? || steps[n].ExpireOne? || steps[n].FailAll? || steps[n].HeartbeatFail?
             || steps[n].GuardDropBegin?) ==> states[n].dropping.None?
  {
    assert Next(states[n], steps[n]) == Some(states[n + 1]);
    assert Enabled(states[n], steps[n]);
  }
}
