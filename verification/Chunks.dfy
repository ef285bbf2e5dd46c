/**
 Keyed reassembly of chunked responses under count, byte and time budgets: the in-place assembler, the value-level
 insert it is proved against, and what whole histories of operations can complete.
 */
module Chunks {
  import opened Common
  import opened MapSums

  const MAX_CHUNKS: nat := 4096
  const MAX_TRANSFER_BYTES: nat := 16 * 1024 * 1024
  const MAX_TRANSFERS: nat := 64
  const MAX_RETAINED_BYTES: nat := 64 * 1024 * 1024
  const TRANSFER_TTL: nat := 30_000 // milliseconds

  datatype Transfer = Transfer(schema: string, total: nat, chunks: map<nat, Bytes>, bytes: nat, deadline: nat)

  type Transfers = map<string, Transfer>

  /** One arriving chunk with the clock reading of its arrival. */
  datatype Chunk = Chunk(key: string, schema: string, index: nat, total: nat, bytes: Bytes, now: nat)

  // ---------------------------------------------------------------- accounting

  function ByteCounts(ts: Transfers): map<string, nat> {
    map k | k in ts :: ts[k].bytes
  }

  ghost function Retained(ts: Transfers): nat {
    Total(ByteCounts(ts))
  }

  function Lengths(chunks: map<nat, Bytes>): map<nat, nat> {
    map i | i in chunks :: |chunks[i]|
  }

  /** The chunks present at indices 1..n, joined in ascending index order, as an ordered map yields its values. */
  function InKeyOrder(chunks: map<nat, Bytes>, n: nat): Bytes {
    if n == 0 then [] else InKeyOrder(chunks, n - 1) + (if n in chunks then chunks[n] else [])
  }

  // ---------------------------------------------------------------- specification of one insert

  /** Why a chunk is refused, in the order the checks are made. */
  ghost function Refusal(ts: Transfers, c: Chunk): Option<string> {
    if c.total == 0 || c.total > MAX_CHUNKS || c.index == 0 || c.index > c.total then
      Some("Invalid chunk count or index")
    else if c.key in ts && ts[c.key].deadline <= c.now then Some("Chunk assembly deadline expired")
    else if c.key in ts && ts[c.key].schema != c.schema then Some("Inconsistent chunk schema")
    else if c.key in ts && ts[c.key].total != c.total then Some("Inconsistent chunk count")
    else if Repeats(ts, c) then
      if ts[c.key].chunks[c.index] == c.bytes then None else Some("Conflicting duplicate chunk")
    else if c.key in ts && ts[c.key].bytes + |c.bytes| > MAX_TRANSFER_BYTES then
      Some("Chunk transfer exceeds byte budget")
    else if c.key !in ts && (|ts| >= MAX_TRANSFERS || |c.bytes| > MAX_TRANSFER_BYTES) then
      Some("Chunk transfer exceeds resource budget")
    else if Retained(ts) + |c.bytes| > MAX_RETAINED_BYTES then
      Some("Chunk assembly exceeds retained byte budget")
    else None
  }

  predicate Repeats(ts: Transfers, c: Chunk) {
    c.key in ts && c.index in ts[c.key].chunks
  }

  function Stored(ts: Transfers, c: Chunk): Transfer {
    var t := if c.key in ts then ts[c.key] else Transfer(c.schema, c.total, map[], 0, c.now + TRANSFER_TTL);
    t.(chunks := t.chunks[c.index := c.bytes], bytes := t.bytes + |c.bytes|)
  }

  ghost function Insert(ts: Transfers, c: Chunk): (Transfers, Result<Option<Bytes>>) {
    InsertGiven(ts, c, Refusal(ts, c))
  }

  function InsertGiven(ts: Transfers, c: Chunk, refusal: Option<string>): (Transfers, Result<Option<Bytes>>) {
    if refusal.Some? then (ts - {c.key}, Err(refusal.value))
    else if Repeats(ts, c) then (ts, Ok(None))
    else
      var t := Stored(ts, c);
      if |t.chunks| != c.total then (ts[c.key := t], Ok(None))
      else (ts - {c.key}, Ok(Some(InKeyOrder(t.chunks, t.total))))
  }

  function Expired(ts: Transfers, now: nat): set<string> {
    set k | k in ts && ts[k].deadline <= now
  }

  // ---------------------------------------------------------------- the budgets

  ghost predicate ValidTransfer(t: Transfer) {
    && 1 <= t.total <= MAX_CHUNKS
    && (forall i :: i in t.chunks ==> 1 <= i <= t.total)
    && 0 < |t.chunks| < t.total
    && t.bytes == Total(Lengths(t.chunks)) <= MAX_TRANSFER_BYTES
  }

  ghost predicate Valid(ts: Transfers) {
    && |ts| <= MAX_TRANSFERS
    && Retained(ts) <= MAX_RETAINED_BYTES
    && forall k :: k in ts ==> ValidTransfer(ts[k])
  }

  lemma RetainedOf(ts: Transfers, key: string)
    requires key in ts
    ensures Retained(ts) == ts[key].bytes + Retained(ts - {key})
  {
    TotalRemove(ByteCounts(ts), key);
    assert ByteCounts(ts) - {key} == ByteCounts(ts - {key});
  }

  lemma RetainedUpdate(ts: Transfers, key: string, t: Transfer)
    ensures Retained(ts[key := t]) == Retained(ts - {key}) + t.bytes
  {
    RetainedOf(ts[key := t], key);
    assert ts[key := t] - {key} == ts - {key};
  }

  lemma RemovalKeepsValid(ts: Transfers, keys: set<string>)
    requires Valid(ts)
    ensures Valid(ts - keys)
  {
    TotalSubmap(ByteCounts(ts - keys), ByteCounts(ts));
    CardinalitySubset((ts - keys).Keys, ts.Keys);
  }

  lemma {:induction false} CardinalitySubset<T>(a: set<T>, b: set<T>)
    requires a <= b
    ensures |a| <= |b|
  {
    if a == {} {
    } else {
      var x :| x in a;
      CardinalitySubset(a - {x}, b - {x});
    }
  }

  /** A set of `n` indices in 1..n is all of them: a transfer with `total` chunks has every chunk. */
  lemma {:induction false} Pigeonhole(keys: set<nat>, n: nat)
    requires forall i :: i in keys ==> 1 <= i <= n
    ensures |keys| <= n
    ensures |keys| == n ==> forall i :: 1 <= i <= n ==> i in keys
  {
    if n == 0 {
      assert keys == {};
    } else {
      Pigeonhole(keys - {n}, n - 1);
      if n !in keys {
        assert keys - {n} == keys;
      }
    }
  }

  /** What the checks leave of a chunk that is about to be stored. */
  ghost predicate Admits(ts: Transfers, c: Chunk) {
    && 1 <= c.index <= c.total <= MAX_CHUNKS && !Repeats(ts, c)
    && (c.key in ts ==> ts[c.key].total == c.total && ts[c.key].bytes + |c.bytes| <= MAX_TRANSFER_BYTES)
    && (c.key !in ts ==> |ts| < MAX_TRANSFERS && |c.bytes| <= MAX_TRANSFER_BYTES)
    && Retained(ts) + |c.bytes| <= MAX_RETAINED_BYTES
  }

  lemma UnrefusedIsAdmitted(ts: Transfers, c: Chunk)
    requires Refusal(ts, c).None? && !Repeats(ts, c)
    ensures Admits(ts, c)
  {
  }

  lemma StoredIndices(ts: Transfers, c: Chunk)
    requires Valid(ts) && Admits(ts, c)
    ensures var t := Stored(ts, c);
            && t.total == c.total && 0 < |t.chunks| <= t.total
            && forall i :: i in t.chunks ==> 1 <= i <= t.total
  {
    var t := Stored(ts, c);
    assert c.index in t.chunks.Keys;
    Pigeonhole(t.chunks.Keys, t.total);
  }

  lemma StoredLengths(ts: Transfers, c: Chunk)
    requires Valid(ts) && Admits(ts, c)
    ensures var t := Stored(ts, c); t.bytes == Total(Lengths(t.chunks)) <= MAX_TRANSFER_BYTES
  {
    if c.key in ts {
      LengthsInsert(ts[c.key].chunks, c.index, c.bytes);
    } else {
      assert Lengths(map[]) == map[];
      LengthsInsert(map[], c.index, c.bytes);
    }
  }

  lemma LengthsInsert(chunks: map<nat, Bytes>, index: nat, bytes: Bytes)
    requires index !in chunks
    ensures Total(Lengths(chunks[index := bytes])) == Total(Lengths(chunks)) + |bytes|
  {
    assert Lengths(chunks[index := bytes]) == Lengths(chunks)[index := |bytes|];
    TotalInsert(Lengths(chunks), index, |bytes|);
  }

  lemma StoreKeepsValid(ts: Transfers, key: string, t: Transfer)
    requires Valid(ts) && ValidTransfer(t)
    requires key in ts || |ts| < MAX_TRANSFERS
    requires Retained(ts - {key}) + t.bytes <= MAX_RETAINED_BYTES
    ensures Valid(ts[key := t])
  {
    RetainedUpdate(ts, key, t);
    UpdateCount(ts, key, t);
    var next := ts[key := t];
    forall k | k in next
      ensures ValidTransfer(next[k])
    {
      assert k == key || next[k] == ts[k];
    }
  }

  lemma UpdateCount(ts: Transfers, key: string, t: Transfer)
    ensures |ts[key := t]| == if key in ts then |ts| else |ts| + 1
  {
    assert ts[key := t].Keys == ts.Keys + {key};
    if key in ts {
      assert ts.Keys + {key} == ts.Keys;
    }
  }

  lemma StoredFits(ts: Transfers, c: Chunk)
    requires Valid(ts) && Admits(ts, c)
    ensures Retained(ts - {c.key}) + Stored(ts, c).bytes <= MAX_RETAINED_BYTES
  {
    if c.key in ts {
      RetainedOf(ts, c.key);
    } else {
      assert ts - {c.key} == ts;
    }
  }

  /** The budgets survive every insert, accepted or refused, so neither subtraction in the checks can underflow. */
  lemma InsertKeepsValid(ts: Transfers, c: Chunk)
    requires Valid(ts)
    ensures Valid(Insert(ts, c).0)
  {
    if Refusal(ts, c).Some? {
      RemovalKeepsValid(ts, {c.key});
    } else if !Repeats(ts, c) {
      UnrefusedIsAdmitted(ts, c);
      StoredIndices(ts, c);
      StoredLengths(ts, c);
      StoredFits(ts, c);
      if |Stored(ts, c).chunks| == c.total {
        RemovalKeepsValid(ts, {c.key});
      } else {
        StoreKeepsValid(ts, c.key, Stored(ts, c));
      }
    }
  }

  /** Whatever an insert answers, every other key's transfer is untouched; an error forgets exactly its own key. */
  lemma InsertIsLocal(ts: Transfers, c: Chunk)
    ensures Insert(ts, c).0 - {c.key} == ts - {c.key}
    ensures Insert(ts, c).1.Err? ==> c.key !in Insert(ts, c).0
  {
    InsertShape(ts, c);
    SameBeside(ts, Insert(ts, c).0, c.key, Stored(ts, c));
  }

  lemma InsertShape(ts: Transfers, c: Chunk)
    ensures Insert(ts, c).0 == ts - {c.key} || Insert(ts, c).0 == ts || Insert(ts, c).0 == ts[c.key := Stored(ts, c)]
    ensures Insert(ts, c).1.Err? ==> Insert(ts, c).0 == ts - {c.key}
  {
    InsertGivenShape(ts, c, Refusal(ts, c));
  }

  lemma InsertGivenShape(ts: Transfers, c: Chunk, refusal: Option<string>)
    ensures var (ts', answer) := InsertGiven(ts, c, refusal);
            && (ts' == ts - {c.key} || ts' == ts || ts' == ts[c.key := Stored(ts, c)])
            && (answer.Err? ==> ts' == ts - {c.key})
  {
  }

  lemma SameBeside(ts: Transfers, ts': Transfers, key: string, t: Transfer)
    requires ts' == ts - {key} || ts' == ts || ts' == ts[key := t]
    ensures ts' - {key} == ts - {key}
  {
    assert ts - {key} - {key} == ts - {key};
    assert ts[key := t] - {key} == ts - {key};
  }

  lemma ErrorForgetsKey(ts: Transfers, c: Chunk)
    ensures Insert(ts, c).1.Err? ==> Insert(ts, c).0 == ts - {c.key}
  {
  }

  // ---------------------------------------------------------------- the assembler

  class ChunkAssembler {
    var transfers: Transfers

    constructor ()
      ensures transfers == map[]
    {
      transfers := map[];
    }

    method Remove(key: string)
      modifies this
      ensures transfers == old(transfers) - {key} == Apply(old(transfers), Forget(key))
    {
      transfers := transfers - {key};
    }

    method Clear()
      modifies this
      ensures transfers == map[] == Apply(old(transfers), ForgetAll)
    {
      transfers := map[];
    }

    method Expire(now: nat) returns (expired: seq<string>)
      modifies this
      ensures transfers == old(transfers) - Expired(old(transfers), now) == Apply(old(transfers), ExpireAt(now))
      ensures |expired| == |Expired(old(transfers), now)|
      ensures forall k :: k in expired <==> k in Expired(old(transfers), now)
    {
      var waiting := Expired(transfers, now);
      expired := [];
      while waiting != {}
        invariant waiting <= Expired(old(transfers), now)
        invariant |expired| + |waiting| == |Expired(old(transfers), now)|
        invariant forall k :: k in expired <==> k in Expired(old(transfers), now) - waiting
        invariant transfers == old(transfers) - (Expired(old(transfers), now) - waiting)
        decreases |waiting|
      {
        var key :| key in waiting;
        waiting := waiting - {key};
        expired := expired + [key];
        Remove(key);
      }
    }

    method RetainedBytes() returns (sum: nat)
      ensures sum == Retained(transfers)
    {
      var rest := transfers;
      sum := 0;
      while rest != map[]
        invariant sum + Retained(rest) == Retained(transfers)
        decreases |rest|
      {
        var key :| key in rest;
        assert rest.Keys == (rest - {key}).Keys + {key};
        RetainedOf(rest, key);
        sum := sum + rest[key].bytes;
        rest := rest - {key};
      }
    }

    method InsertChunk(c: Chunk) returns (result: Result<Option<Bytes>>)
      requires Valid(transfers)
      modifies this
      ensures transfers == Insert(old(transfers), c).0 && result == Insert(old(transfers), c).1
      ensures Valid(transfers)
    {
      InsertKeepsValid(transfers, c);
      ErrorForgetsKey(transfers, c);
      result := InsertChecked(c);
      if result.Err? {
        Remove(c.key);
      }
    }

    method InsertChecked(c: Chunk) returns (result: Result<Option<Bytes>>)
      requires Valid(transfers)
      modifies this
      ensures result == Insert(old(transfers), c).1
      ensures transfers == if result.Err? then old(transfers) else Insert(old(transfers), c).0
    {
      if c.total == 0 || c.total > MAX_CHUNKS || c.index == 0 || c.index > c.total {
        return Err("Invalid chunk count or index");
      }
      var retained := RetainedBytes();
      if c.key in transfers {
        var transfer := transfers[c.key];
        if transfer.deadline <= c.now {
          return Err("Chunk assembly deadline expired");
        }
        if transfer.schema != c.schema {
          return Err("Inconsistent chunk schema");
        }
        if transfer.total != c.total {
          return Err("Inconsistent chunk count");
        }
        if c.index in transfer.chunks {
          return if transfer.chunks[c.index] == c.bytes then Ok(None) else Err("Conflicting duplicate chunk");
        }
        if |c.bytes| > MAX_TRANSFER_BYTES - transfer.bytes {
          return Err("Chunk transfer exceeds byte budget");
        }
      } else if |transfers| >= MAX_TRANSFERS || |c.bytes| > MAX_TRANSFER_BYTES {
        return Err("Chunk transfer exceeds resource budget");
      }
      if |c.bytes| > MAX_RETAINED_BYTES - retained {
        return Err("Chunk assembly exceeds retained byte budget");
      }
      result := Store(c);
    }

    /** The entry-or-insert, the completion test and the join at the end of an accepted insert. */
    method Store(c: Chunk) returns (result: Result<Option<Bytes>>)
      requires Refusal(transfers, c).None? && !Repeats(transfers, c)
      modifies this
      ensures (transfers, result) == Insert(old(transfers), c)
    {
      var transfer := if c.key in transfers then transfers[c.key]
                      else Transfer(c.schema, c.total, map[], 0, c.now + TRANSFER_TTL);
      transfer := transfer.(bytes := transfer.bytes + |c.bytes|);
      transfer := transfer.(chunks := transfer.chunks[c.index := c.bytes]);
      assert transfer == Stored(transfers, c);
      transfers := transfers[c.key := transfer];
      if |transfer.chunks| != c.total {
        return Ok(None);
      }
      transfers := transfers - {c.key};
      assert transfers == old(transfers) - {c.key};
      var joined := Join(transfer.chunks, transfer.total);
      return Ok(Some(joined));
    }
  }

  method Join(chunks: map<nat, Bytes>, n: nat) returns (joined: Bytes)
    ensures joined == InKeyOrder(chunks, n)
  {
    joined := [];
    for i := 0 to n
      invariant joined == InKeyOrder(chunks, i)
    {
      if i + 1 in chunks {
        joined := joined + chunks[i + 1];
      }
    }
  }

  // ---------------------------------------------------------------- histories

  datatype Op =
    | Arrive(chunk: Chunk)
    | ExpireAt(now: nat)
    | Forget(key: string)
    | ForgetAll

  ghost function Apply(ts: Transfers, op: Op): Transfers {
    match op
    case Arrive(c) => Insert(ts, c).0
    case ExpireAt(now) => ts - Expired(ts, now)
    case Forget(key) => ts - {key}
    case ForgetAll => map[]
  }

  /** A history: the state before each operation and after the last. */
  ghost predicate Trace(states: seq<Transfers>, ops: seq<Op>) {
    && |states| == |ops| + 1
    && forall i :: 0 <= i < |ops| ==> states[i + 1] == Apply(states[i], ops[i])
  }

  /** What the arrival at position `i` answered. */
  ghost function Answer(states: seq<Transfers>, ops: seq<Op>, i: nat): Result<Option<Bytes>>
    requires i < |ops| <= |states| && ops[i].Arrive?
  {
    Insert(states[i], ops[i].chunk).1
  }

  lemma ApplyKeepsValid(ts: Transfers, op: Op)
    requires Valid(ts)
    ensures Valid(Apply(ts, op))
  {
    match op
    case Arrive(c) => InsertKeepsValid(ts, c);
    case ExpireAt(now) => RemovalKeepsValid(ts, Expired(ts, now));
    case Forget(key) => RemovalKeepsValid(ts, {key});
    case ForgetAll => RemovalKeepsValid(ts, ts.Keys); assert ts - ts.Keys == map[];
  }

  /** Count, per-transfer and retained budgets hold in every reachable state. */
  lemma {:induction false} BudgetsHoldOverEveryHistory(states: seq<Transfers>, ops: seq<Op>, n: nat)
    requires Trace(states, ops) && states[0] == map[] && n < |states|
    ensures Valid(states[n])
    ensures |states[n]| <= 64 && Retained(states[n]) <= 64 * 1024 * 1024
    ensures forall k :: k in states[n] ==> states[n][k].bytes == Total(Lengths(states[n][k].chunks)) <= 16 * 1024 * 1024
  {
    if n == 0 {
      EmptyIsValid();
    } else {
      BudgetsHoldOverEveryHistory(states, ops, n - 1);
      ApplyKeepsValid(states[n - 1], ops[n - 1]);
    }
  }

  lemma EmptyIsValid()
    ensures Valid(map[])
  {
    assert ByteCounts(map[]) == map[];
  }

  // ---------------------------------------------------------------- where completed bytes come from

  /** Arrival `i` brought chunk `index` of this transfer. */
  ghost predicate Brings(ops: seq<Op>, i: nat, key: string, t: Transfer, index: nat, bytes: Bytes) {
    && i < |ops| && ops[i].Arrive?
    && var c := ops[i].chunk;
       && c.key == key && c.schema == t.schema && c.total == t.total && c.index == index && c.bytes == bytes
       && c.now < t.deadline
  }

  ghost predicate BroughtSince(ops: seq<Op>, first: nat, n: nat, key: string, t: Transfer, index: nat, bytes: Bytes) {
    exists i :: first <= i < n && Brings(ops, i, key, t, index, bytes)
  }

  /** Arrival `first` opened the transfer; every chunk it holds was brought at or after it and before position `n`. */
  ghost predicate OpenedBy(ops: seq<Op>, first: nat, n: nat, key: string, t: Transfer) {
    && first < n <= |ops| && ops[first].Arrive? && ops[first].chunk.key == key
    && t.deadline == ops[first].chunk.now + TRANSFER_TTL
    && forall index :: index in t.chunks ==> BroughtSince(ops, first, n, key, t, index, t.chunks[index])
  }

  /** A stored chunk opens its key's transfer or agrees with the one that is open. */
  ghost predicate Joins(ts: Transfers, c: Chunk) {
    c.key in ts ==> ts[c.key].schema == c.schema && ts[c.key].total == c.total && c.now < ts[c.key].deadline
  }

  lemma ApplyCases(ts: Transfers, op: Op, key: string)
    requires key in Apply(ts, op)
    ensures || (key in ts && Apply(ts, op)[key] == ts[key])
            || (op.Arrive? && op.chunk.key == key && Joins(ts, op.chunk) && Apply(ts, op)[key] == Stored(ts, op.chunk))
  {
  }

  lemma {:induction false} TransferProvenance(states: seq<Transfers>, ops: seq<Op>, n: nat, key: string) returns (first: nat)
    requires Trace(states, ops) && states[0] == map[] && n < |states| && key in states[n]
    ensures OpenedBy(ops, first, n, key, states[n][key])
    ensures key !in states[first] && forall j :: first < j <= n ==> key in states[j]
  {
    var m := n - 1;
    ApplyCases(states[m], ops[m], key);
    if key in states[m] {
      first := TransferProvenance(states, ops, m, key);
    } else {
      first := m;
    }
    ProvenanceStep(ops, m, first, key, states[m], states[n][key]);
  }

  lemma ProvenanceStep(ops: seq<Op>, n: nat, first: nat, key: string, before: Transfers, t: Transfer)
    requires n < |ops|
    requires if key in before then OpenedBy(ops, first, n, key, before[key]) else first == n
    requires || (key in before && t == before[key])
             || (ops[n].Arrive? && ops[n].chunk.key == key && Joins(before, ops[n].chunk)
                 && t == Stored(before, ops[n].chunk))
    ensures OpenedBy(ops, first, n + 1, key, t)
  {
    forall index | index in t.chunks
      ensures BroughtSince(ops, first, n + 1, key, t, index, t.chunks[index])
    {
      if key in before && index in before[key].chunks && before[key].chunks[index] == t.chunks[index] {
        var i :| first <= i < n && Brings(ops, i, key, before[key], index, before[key].chunks[index]);
        assert Brings(ops, i, key, t, index, t.chunks[index]);
      } else {
        assert Brings(ops, n, key, t, index, t.chunks[index]);
      }
    }
  }

  // ---------------------------------------------------------------- completion

  /** An expiry at `now` removes a transfer exactly when 30 s have passed since its opening chunk, and leaves any other as it is. */
  lemma ExpiredExactlyWhen(states: seq<Transfers>, ops: seq<Op>, i: nat, now: nat, key: string) returns (first: nat)
    requires Trace(states, ops) && states[0] == map[] && i < |ops| && ops[i] == ExpireAt(now) && key in states[i]
    ensures first < i && ops[first].Arrive? && ops[first].chunk.key == key
    ensures key !in states[first] && forall j :: first < j <= i ==> key in states[j]
    ensures key in states[i + 1] <==> now < ops[first].chunk.now + 30_000
    ensures key in states[i + 1] ==> states[i + 1][key] == states[i][key]
  {
    first := TransferProvenance(states, ops, i, key);
    assert states[i + 1] == Apply(states[i], ops[i]);
  }

  /** The chunk is refused exactly when its numbers make no sense, it contradicts the open transfer, or a budget is short. */
  lemma RefusedExactlyWhen(ts: Transfers, c: Chunk)
    ensures Insert(ts, c).1.Err? <==>
      || !(1 <= c.index <= c.total <= 4096)
      || (c.key in ts && Contradicts(ts[c.key], c))
      || (!(c.key in ts && c.index in ts[c.key].chunks)
          && (|c.bytes| + (if c.key in ts then ts[c.key].bytes else 0) > 16 * 1024 * 1024
              || Retained(ts) + |c.bytes| > 64 * 1024 * 1024
              || (c.key !in ts && |ts| >= 64)))
  {
  }

  /** Too late, of another schema or count, or other bytes under an index already filled. */
  predicate Contradicts(t: Transfer, c: Chunk) {
    t.deadline <= c.now || t.schema != c.schema || t.total != c.total || (c.index in t.chunks && t.chunks[c.index] != c.bytes)
  }

  /** An identical repeat changes nothing and answers nothing. */
  lemma RepeatChangesNothing(ts: Transfers, c: Chunk)
    requires 1 <= c.index <= c.total <= 4096 && c.key in ts && !Contradicts(ts[c.key], c) && c.index in ts[c.key].chunks
    ensures Insert(ts, c) == (ts, Ok(None))
  {
  }

  function Listed(chunks: map<nat, Bytes>, n: nat): seq<Bytes>
    requires forall i :: 1 <= i <= n ==> i in chunks
  {
    seq(n, i requires 0 <= i < n => chunks[i + 1])
  }

  lemma {:induction false} InKeyOrderIsConcat(chunks: map<nat, Bytes>, n: nat)
    requires forall i :: 1 <= i <= n ==> i in chunks
    ensures InKeyOrder(chunks, n) == Concat(Listed(chunks, n))
  {
    if n == 0 {
    } else {
      InKeyOrderIsConcat(chunks, n - 1);
      assert Listed(chunks, n) == Listed(chunks, n - 1) + [chunks[n]];
      ConcatSnoc(Listed(chunks, n - 1), chunks[n]);
    }
  }

  lemma CompletingInsert(ts: Transfers, c: Chunk)
    requires Valid(ts) && Insert(ts, c).1.Ok? && Insert(ts, c).1.value.Some?
    ensures Joins(ts, c)
    ensures var t := Stored(ts, c);
            && t.schema == c.schema && t.total == c.total
            && (forall i :: 1 <= i <= c.total ==> i in t.chunks)
            && Insert(ts, c).1 == Ok(Some(Concat(Listed(t.chunks, c.total))))
  {
    UnrefusedIsAdmitted(ts, c);
    StoredIndices(ts, c);
    var t := Stored(ts, c);
    Pigeonhole(t.chunks.Keys, t.total);
    InKeyOrderIsConcat(t.chunks, t.total);
  }

  /** Some arrival from `first` to `i` carried these bytes as chunk `k + 1` of chunk `c`'s key, schema and total. */
  ghost predicate SuppliedSince(ops: seq<Op>, first: nat, i: nat, c: Chunk, k: nat, bytes: Bytes)
    requires i < |ops|
  {
    exists j :: first <= j <= i && ops[j].Arrive? && ops[first].Arrive?
                && ops[j].chunk.(now := c.now) == c.(index := k + 1, bytes := bytes)
                && ops[j].chunk.now < ops[first].chunk.now + 30_000
  }

  lemma SuppliedParts(ops: seq<Op>, first: nat, i: nat, t: Transfer, c: Chunk)
    requires i < |ops| && OpenedBy(ops, first, i + 1, c.key, t) && t.schema == c.schema && t.total == c.total
    requires forall index :: 1 <= index <= c.total ==> index in t.chunks
    ensures var parts := Listed(t.chunks, c.total);
            forall k :: 0 <= k < |parts| ==> SuppliedSince(ops, first, i, c, k, parts[k])
  {
    var parts := Listed(t.chunks, c.total);
    forall k | 0 <= k < |parts|
      ensures SuppliedSince(ops, first, i, c, k, parts[k])
    {
      assert BroughtSince(ops, first, i + 1, c.key, t, k + 1, t.chunks[k + 1]);
      var j :| first <= j < i + 1 && Brings(ops, j, c.key, t, k + 1, t.chunks[k + 1]);
      assert ops[j].chunk.(now := c.now) == c.(index := k + 1, bytes := parts[k]);
    }
  }

  /**
   A completed response is the join, in index order, of one chunk per index 1..total, each brought under this key,
   schema and total since the arrival that opened the transfer, and each, the last included, less than 30 s after it.
   */
  lemma {:induction false} CompletionProvenance(states: seq<Transfers>, ops: seq<Op>, i: nat)
    returns (first: nat, parts: seq<Bytes>)
    requires Trace(states, ops) && states[0] == map[] && i < |ops| && ops[i].Arrive?
    requires Answer(states, ops, i).Ok? && Answer(states, ops, i).value.Some?
    ensures first <= i && ops[first].Arrive? && ops[first].chunk.key == ops[i].chunk.key
    ensures ops[i].chunk.now < ops[first].chunk.now + 30_000
    ensures |parts| == ops[i].chunk.total && Answer(states, ops, i) == Ok(Some(Concat(parts)))
    ensures forall k :: 0 <= k < |parts| ==> SuppliedSince(ops, first, i, ops[i].chunk, k, parts[k])
  {
    var before, c := states[i], ops[i].chunk;
    BudgetsHoldOverEveryHistory(states, ops, i);
    CompletingInsert(before, c);
    parts := Listed(Stored(before, c).chunks, c.total);
    if c.key in before {
      first := TransferProvenance(states, ops, i, c.key);
    } else {
      first := i;
    }
    ProvenanceStep(ops, i, first, c.key, before, Stored(before, c));
    SuppliedParts(ops, first, i, Stored(before, c), c);
  }

  // ---------------------------------------------------------------- any arrival order completes

  /** A chunk set a peer sends under one key. */
  datatype ChunkSet = ChunkSet(key: string, schema: string, parts: seq<Bytes>, openedAt: nat)

  predicate WithinBudgets(cs: ChunkSet) {
    1 <= |cs.parts| <= 4096 && |Concat(cs.parts)| <= 16 * 1024 * 1024
  }

  predicate Own(op: Op, cs: ChunkSet) {
    op.Arrive? && op.chunk.key == cs.key
  }

  predicate Member(c: Chunk, cs: ChunkSet) {
    && c.key == cs.key && c.schema == cs.schema && c.total == |cs.parts|
    && 1 <= c.index <= |cs.parts| && c.bytes == cs.parts[c.index - 1]
    && c.now < cs.openedAt + 30_000
  }

  /** The indices of the set that have arrived among the first `n` operations. */
  ghost function Seen(ops: seq<Op>, cs: ChunkSet, n: nat): set<nat>
    requires n <= |ops|
  {
    if n == 0 then {} else Seen(ops, cs, n - 1) + if Own(ops[n - 1], cs) then {ops[n - 1].chunk.index} else {}
  }

  /** The retained budget has room for this one chunk, and a new key has room for a transfer. */
  ghost predicate RoomFor(ts: Transfers, c: Chunk) {
    Retained(ts) + |c.bytes| <= 64 * 1024 * 1024 && (c.key !in ts ==> |ts| < 64)
  }

  /** The other transfers leave room for the whole set, which is more than its chunks need one by one. */
  ghost predicate Roomy(ts: Transfers, cs: ChunkSet) {
    |ts - {cs.key}| < MAX_TRANSFERS && Retained(ts - {cs.key}) + |Concat(cs.parts)| <= MAX_RETAINED_BYTES
  }

  /** What may happen next: a member of the set before the deadline, or anything that does not concern this key. */
  predicate Allowed(seen: set<nat>, op: Op, cs: ChunkSet) {
    match op
    case Arrive(c) => c.key == cs.key ==> Member(c, cs) && (seen == {} ==> c.now == cs.openedAt)
    case ExpireAt(now) => now < cs.openedAt + TRANSFER_TTL
    case Forget(key) => key != cs.key
    case ForgetAll => false
  }

  /** And a chunk that is new finds room. */
  ghost predicate Harmless(ts: Transfers, seen: set<nat>, op: Op, cs: ChunkSet) {
    Allowed(seen, op, cs) && (Own(op, cs) && op.chunk.index !in seen ==> RoomFor(ts, op.chunk))
  }

  /** The first n operations of a history are harmless to the set. */
  ghost predicate HarmlessUpTo(states: seq<Transfers>, ops: seq<Op>, cs: ChunkSet, n: nat) {
    Trace(states, ops) && n <= |ops| && forall i :: 0 <= i < n ==> Harmless(states[i], Seen(ops, cs, i), ops[i], cs)
  }

  ghost function Part(cs: ChunkSet, seen: set<nat>): map<nat, Bytes> {
    map i | i in seen && 1 <= i <= |cs.parts| :: cs.parts[i - 1]
  }

  ghost predicate Holds(ts: Transfers, cs: ChunkSet, seen: set<nat>) {
    if seen == {} then cs.key !in ts
    else
      && cs.key in ts
      && ts[cs.key] == Transfer(cs.schema, |cs.parts|, Part(cs, seen), Total(Lengths(Part(cs, seen))),
                                cs.openedAt + TRANSFER_TTL)
  }

  ghost predicate Indices(seen: set<nat>, cs: ChunkSet) {
    forall i :: i in seen ==> 1 <= i <= |cs.parts|
  }

  ghost function FullLengths(parts: seq<Bytes>): map<nat, nat> {
    if parts == [] then map[] else FullLengths(parts[..|parts| - 1])[|parts| := |parts[|parts| - 1]|]
  }

  lemma {:induction false} FullLengthsTotal(parts: seq<Bytes>)
    ensures forall i :: i in FullLengths(parts) <==> 1 <= i <= |parts|
    ensures forall i :: i in FullLengths(parts) ==> FullLengths(parts)[i] == |parts[i - 1]|
    ensures Total(FullLengths(parts)) == |Concat(parts)|
  {
    var n := |parts|;
    if n == 0 {
    } else {
      FullLengthsTotal(parts[..n - 1]);
      TotalInsert<nat>(FullLengths(parts[..n - 1]), n, |parts[n - 1]|);
      assert parts == parts[..n - 1] + [parts[n - 1]];
      ConcatSnoc(parts[..n - 1], parts[n - 1]);
      assert FullLengths(parts) == FullLengths(parts[..n - 1])[n := |parts[n - 1]|];
      assert |Concat(parts)| == |Concat(parts[..n - 1])| + |parts[n - 1]|;
    }
  }

  lemma PartGrows(cs: ChunkSet, seen: set<nat>, index: nat)
    requires Indices(seen, cs) && 1 <= index <= |cs.parts| && index !in seen
    ensures Part(cs, seen + {index}) == Part(cs, seen)[index := cs.parts[index - 1]]
    ensures Total(Lengths(Part(cs, seen + {index}))) == Total(Lengths(Part(cs, seen))) + |cs.parts[index - 1]|
    ensures Total(Lengths(Part(cs, seen + {index}))) <= |Concat(cs.parts)|
  {
    var after := Part(cs, seen + {index});
    assert after == Part(cs, seen)[index := cs.parts[index - 1]];
    LengthsInsert(Part(cs, seen), index, cs.parts[index - 1]);
    FullLengthsTotal(cs.parts);
    TotalSubmap(Lengths(after), FullLengths(cs.parts));
  }

  lemma MemberFitsTransfer(ts: Transfers, cs: ChunkSet, seen: set<nat>, index: nat)
    requires WithinBudgets(cs) && Indices(seen, cs) && Holds(ts, cs, seen)
    requires 1 <= index <= |cs.parts| && index !in seen
    ensures cs.key in ts ==> ts[cs.key].bytes + |cs.parts[index - 1]| <= MAX_TRANSFER_BYTES
    ensures cs.key !in ts ==> |cs.parts[index - 1]| <= MAX_TRANSFER_BYTES
  {
    PartGrows(cs, seen, index);
  }

  /** Room for the whole set is room for each of its chunks. */
  lemma RoomyIsEnough(ts: Transfers, cs: ChunkSet, seen: set<nat>, c: Chunk)
    requires WithinBudgets(cs) && Indices(seen, cs) && Holds(ts, cs, seen) && Roomy(ts, cs)
    requires Member(c, cs) && c.index !in seen
    ensures RoomFor(ts, c)
  {
    PartGrows(cs, seen, c.index);
    if seen == {} {
      assert ts - {cs.key} == ts;
    } else {
      RetainedOf(ts, cs.key);
    }
  }

  lemma MemberIsNotRefused(ts: Transfers, cs: ChunkSet, seen: set<nat>, c: Chunk)
    requires WithinBudgets(cs) && Indices(seen, cs) && Holds(ts, cs, seen)
    requires Member(c, cs) && (c.index !in seen ==> RoomFor(ts, c))
    ensures Refusal(ts, c).None?
    ensures Repeats(ts, c) <==> c.index in seen
  {
    if c.index in seen {
      RepeatIsNotRefused(ts, cs, seen, c);
    } else {
      MemberFitsTransfer(ts, cs, seen, c.index);
      if seen == {} {
        OpeningIsNotRefused(ts, c);
      } else {
        JoiningIsNotRefused(ts, c);
      }
    }
  }

  lemma RepeatIsNotRefused(ts: Transfers, cs: ChunkSet, seen: set<nat>, c: Chunk)
    requires WithinBudgets(cs) && Indices(seen, cs) && Holds(ts, cs, seen) && Member(c, cs) && c.index in seen
    ensures Refusal(ts, c).None? && Repeats(ts, c)
  {
  }

  lemma OpeningIsNotRefused(ts: Transfers, c: Chunk)
    requires 1 <= c.index <= c.total <= MAX_CHUNKS && c.key !in ts
    requires |ts| < MAX_TRANSFERS && |c.bytes| <= MAX_TRANSFER_BYTES && Retained(ts) + |c.bytes| <= MAX_RETAINED_BYTES
    ensures Refusal(ts, c).None?
  {
  }

  lemma JoiningIsNotRefused(ts: Transfers, c: Chunk)
    requires 1 <= c.index <= c.total <= MAX_CHUNKS && c.key in ts && Joins(ts, c) && c.index !in ts[c.key].chunks
    requires ts[c.key].bytes + |c.bytes| <= MAX_TRANSFER_BYTES && Retained(ts) + |c.bytes| <= MAX_RETAINED_BYTES
    ensures Refusal(ts, c).None?
  {
  }

  lemma StoredMember(ts: Transfers, cs: ChunkSet, seen: set<nat>, c: Chunk)
    requires Indices(seen, cs) && Holds(ts, cs, seen)
    requires Member(c, cs) && c.index !in seen && (seen == {} ==> c.now == cs.openedAt)
    ensures var t := Stored(ts, c);
            && t == Transfer(cs.schema, |cs.parts|, Part(cs, seen + {c.index}),
                             Total(Lengths(Part(cs, seen + {c.index}))), cs.openedAt + TRANSFER_TTL)
            && t.chunks.Keys == seen + {c.index}
  {
    PartGrows(cs, seen, c.index);
    if seen == {} {
      assert Part(cs, seen) == map[];
      assert Lengths(Part(cs, seen)) == map[];
    }
  }

  lemma CompletePartJoins(cs: ChunkSet, seen: set<nat>)
    requires Indices(seen, cs) && |seen| == |cs.parts|
    ensures InKeyOrder(Part(cs, seen), |cs.parts|) == Concat(cs.parts)
  {
    Pigeonhole(seen, |cs.parts|);
    InKeyOrderIsConcat(Part(cs, seen), |cs.parts|);
    assert Listed(Part(cs, seen), |cs.parts|) == cs.parts;
  }

  /** An own arrival answers `Ok(None)` until the set is complete and the whole join at the moment it is. */
  lemma MemberArrives(ts: Transfers, cs: ChunkSet, seen: set<nat>, c: Chunk)
    requires WithinBudgets(cs) && Indices(seen, cs) && |seen| < |cs.parts| && Holds(ts, cs, seen)
    requires Member(c, cs) && (c.index !in seen ==> RoomFor(ts, c)) && (seen == {} ==> c.now == cs.openedAt)
    ensures Indices(seen + {c.index}, cs)
    ensures if |seen + {c.index}| == |cs.parts|
            then Insert(ts, c) == (ts - {cs.key}, Ok(Some(Concat(cs.parts))))
            else Insert(ts, c).1 == Ok(None) && Holds(Insert(ts, c).0, cs, seen + {c.index})
  {
    MemberIsNotRefused(ts, cs, seen, c);
    if c.index in seen {
      assert seen + {c.index} == seen;
    } else {
      StoredMember(ts, cs, seen, c);
      if |seen + {c.index}| == |cs.parts| {
        CompletePartJoins(cs, seen + {c.index});
      }
    }
  }

  lemma ForeignStep(ts: Transfers, cs: ChunkSet, seen: set<nat>, op: Op)
    requires Holds(ts, cs, seen) && Harmless(ts, seen, op, cs) && !Own(op, cs)
    ensures Holds(Apply(ts, op), cs, seen)
  {
    if op.Arrive? {
      InsertIsLocal(ts, op.chunk);
      assert cs.key in Apply(ts, op) <==> cs.key in Apply(ts, op) - {op.chunk.key};
    }
  }

  lemma IncompleteStep(ts: Transfers, cs: ChunkSet, seen: set<nat>, op: Op, next: set<nat>)
    requires WithinBudgets(cs) && Indices(seen, cs) && Holds(ts, cs, seen) && Harmless(ts, seen, op, cs)
    requires next == seen + (if Own(op, cs) then {op.chunk.index} else {}) && |next| < |cs.parts|
    ensures Indices(next, cs) && Holds(Apply(ts, op), cs, next)
    ensures Own(op, cs) ==> Insert(ts, op.chunk).1 == Ok(None)
  {
    if Own(op, cs) {
      CardinalitySubset(seen, next);
      MemberArrives(ts, cs, seen, op.chunk);
    } else {
      assert next == seen;
      ForeignStep(ts, cs, seen, op);
    }
  }

  ghost predicate Waits(states: seq<Transfers>, ops: seq<Op>, cs: ChunkSet, i: nat)
    requires i < |ops| <= |states|
  {
    Own(ops[i], cs) ==> Answer(states, ops, i) == Ok(None)
  }

  lemma {:induction false} IncompleteSetIsHeld(states: seq<Transfers>, ops: seq<Op>, cs: ChunkSet, n: nat)
    requires HarmlessUpTo(states, ops, cs, n) && cs.key !in states[0] && WithinBudgets(cs)
    requires |Seen(ops, cs, n)| < |cs.parts|
    ensures Indices(Seen(ops, cs, n), cs) && Holds(states[n], cs, Seen(ops, cs, n))
  {
    if n == 0 {
    } else {
      var m := n - 1;
      HarmlessStep(states, ops, cs, m);
      CardinalitySubset(Seen(ops, cs, m), Seen(ops, cs, n));
      IncompleteSetIsHeld(states, ops, cs, m);
      IncompleteStep(states[m], cs, Seen(ops, cs, m), ops[m], Seen(ops, cs, n));
    }
  }

  lemma HarmlessStep(states: seq<Transfers>, ops: seq<Op>, cs: ChunkSet, m: nat)
    requires HarmlessUpTo(states, ops, cs, m + 1)
    ensures states[m + 1] == Apply(states[m], ops[m]) && Harmless(states[m], Seen(ops, cs, m), ops[m], cs)
    ensures Seen(ops, cs, m + 1) == Seen(ops, cs, m) + if Own(ops[m], cs) then {ops[m].chunk.index} else {}
  {
  }

  lemma {:induction false} SeenMonotone(ops: seq<Op>, cs: ChunkSet, m: nat, n: nat)
    requires m <= n <= |ops|
    ensures Seen(ops, cs, m) <= Seen(ops, cs, n) && |Seen(ops, cs, m)| <= |Seen(ops, cs, n)|
    decreases n - m
  {
    if m < n {
      SeenMonotone(ops, cs, m, n - 1);
    }
    CardinalitySubset(Seen(ops, cs, m), Seen(ops, cs, n));
  }

  lemma EarlierMemberWaits(states: seq<Transfers>, ops: seq<Op>, cs: ChunkSet, i: nat, n: nat)
    requires HarmlessUpTo(states, ops, cs, n) && cs.key !in states[0] && WithinBudgets(cs)
    requires i < n && |Seen(ops, cs, n)| < |cs.parts|
    ensures Waits(states, ops, cs, i)
  {
    SeenMonotone(ops, cs, i, n);
    SeenMonotone(ops, cs, i + 1, n);
    HarmlessStep(states, ops, cs, i);
    IncompleteSetIsHeld(states, ops, cs, i);
    IncompleteStep(states[i], cs, Seen(ops, cs, i), ops[i], Seen(ops, cs, i + 1));
  }

  /**
   Whatever the arrival order, whatever identical repeats and whatever traffic on other keys in between: every own
   arrival answers `Ok(None)` except the one that brings the last missing index, which answers the chunks joined in
   index order and forgets the key.
   */
  lemma {:induction false} AnyArrivalOrderCompletesOnce(states: seq<Transfers>, ops: seq<Op>, cs: ChunkSet, n: nat)
    requires HarmlessUpTo(states, ops, cs, n + 1) && cs.key !in states[0] && WithinBudgets(cs)
    requires |Seen(ops, cs, n)| < |cs.parts| == |Seen(ops, cs, n + 1)|
    ensures Own(ops[n], cs) && Answer(states, ops, n) == Ok(Some(Concat(cs.parts)))
    ensures cs.key !in states[n + 1]
    ensures forall i :: 0 <= i < n ==> Waits(states, ops, cs, i)
  {
    HarmlessStep(states, ops, cs, n);
    IncompleteSetIsHeld(states, ops, cs, n);
    MemberArrives(states[n], cs, Seen(ops, cs, n), ops[n].chunk);
    forall i | 0 <= i < n
      ensures Waits(states, ops, cs, i)
    {
      EarlierMemberWaits(states, ops, cs, i, n);
    }
  }

  // ---------------------------------------------------------------- when the others leave room for the whole set

  lemma {:induction false} SeenIndices(ops: seq<Op>, cs: ChunkSet, n: nat)
    requires n <= |ops| && forall i :: 0 <= i < n && Own(ops[i], cs) ==> 1 <= ops[i].chunk.index <= |cs.parts|
    ensures Indices(Seen(ops, cs, n), cs)
  {
    if n == 0 {
    } else {
      SeenIndices(ops, cs, n - 1);
    }
  }

  /** It is enough that at each arrival the other transfers leave room for the whole set. */
  lemma {:induction false} RoomyHistoryIsHarmless(states: seq<Transfers>, ops: seq<Op>, cs: ChunkSet, n: nat)
    requires Trace(states, ops) && n <= |ops| && cs.key !in states[0] && WithinBudgets(cs)
    requires forall i :: 0 <= i < n ==> Allowed(Seen(ops, cs, i), ops[i], cs)
    requires forall i :: 0 <= i < n && Own(ops[i], cs) ==> Roomy(states[i], cs)
    ensures HarmlessUpTo(states, ops, cs, n)
  {
    if n == 0 {
    } else {
      var m := n - 1;
      RoomyHistoryIsHarmless(states, ops, cs, m);
      var seen := Seen(ops, cs, m);
      assert Allowed(seen, ops[m], cs);
      if Own(ops[m], cs) && ops[m].chunk.index !in seen {
        forall i | 0 <= i < m && Own(ops[i], cs)
          ensures 1 <= ops[i].chunk.index <= |cs.parts|
        {
          assert Allowed(Seen(ops, cs, i), ops[i], cs);
        }
        SeenIndices(ops, cs, m);
        Pigeonhole(seen, |cs.parts|);
        IncompleteSetIsHeld(states, ops, cs, m);
        RoomyIsEnough(states[m], cs, seen, ops[m].chunk);
      }
    }
  }

  // ---------------------------------------------------------------- the set on its own, from an empty assembler

  predicate OnlyMembers(ops: seq<Op>, cs: ChunkSet) {
    && (forall i :: 0 <= i < |ops| ==> ops[i].Arrive? && Member(ops[i].chunk, cs))
    && (ops != [] ==> ops[0].chunk.now == cs.openedAt)
  }

  lemma {:induction false} OnlyOwnKey(states: seq<Transfers>, ops: seq<Op>, cs: ChunkSet, i: nat)
    requires Trace(states, ops) && states[0] == map[] && OnlyMembers(ops, cs) && i <= |ops|
    ensures states[i] - {cs.key} == map[]
    ensures i > 0 ==> Seen(ops, cs, i) != {}
  {
    if i == 0 {
    } else {
      OnlyOwnKey(states, ops, cs, i - 1);
      InsertIsLocal(states[i - 1], ops[i - 1].chunk);
      assert ops[i - 1].chunk.index in Seen(ops, cs, i);
    }
  }

  lemma PartWithinSet(cs: ChunkSet, index: nat)
    requires 1 <= index <= |cs.parts|
    ensures |cs.parts[index - 1]| <= |Concat(cs.parts)|
  {
    PartGrows(cs, {}, index);
  }

  /** An assembler that holds at most one transfer has room for any chunk of a set within the budgets. */
  lemma RoomBesideItself(ts: Transfers, cs: ChunkSet, c: Chunk)
    requires Valid(ts) && ts - {cs.key} == map[] && WithinBudgets(cs) && Member(c, cs)
    ensures RoomFor(ts, c)
  {
    PartWithinSet(cs, c.index);
    assert ByteCounts(map[]) == map[];
    if cs.key in ts {
      RetainedOf(ts, cs.key);
      assert ValidTransfer(ts[cs.key]);
    } else {
      assert ts == ts - {cs.key};
    }
  }

  lemma MembersAreHarmless(states: seq<Transfers>, ops: seq<Op>, cs: ChunkSet)
    requires Trace(states, ops) && states[0] == map[] && OnlyMembers(ops, cs) && WithinBudgets(cs)
    ensures HarmlessUpTo(states, ops, cs, |ops|)
  {
    forall i | 0 <= i < |ops|
      ensures Harmless(states[i], Seen(ops, cs, i), ops[i], cs)
    {
      OnlyOwnKey(states, ops, cs, i);
      BudgetsHoldOverEveryHistory(states, ops, i);
      RoomBesideItself(states[i], cs, ops[i].chunk);
    }
  }

  /** From an empty assembler, any order of the chunks with any identical repeats completes at the last missing index. */
  lemma AnyOrderFromEmptyCompletes(states: seq<Transfers>, ops: seq<Op>, cs: ChunkSet, n: nat)
    requires Trace(states, ops) && states[0] == map[] && OnlyMembers(ops, cs) && WithinBudgets(cs)
    requires n < |ops| && |Seen(ops, cs, n)| < |cs.parts| == |Seen(ops, cs, n + 1)|
    ensures Answer(states, ops, n) == Ok(Some(Concat(cs.parts)))
    ensures forall i :: 0 <= i < n ==> Answer(states, ops, i) == Ok(None)
  {
    MembersAreHarmless(states, ops, cs);
    assert HarmlessUpTo(states, ops, cs, n + 1);
    AnyArrivalOrderCompletesOnce(states, ops, cs, n);
    forall i | 0 <= i < n
      ensures Answer(states, ops, i) == Ok(None)
    {
      assert Waits(states, ops, cs, i) && Own(ops[i], cs);
    }
  }
}
