/** How many bytes an event is charged: an iterative worklist over its JSON payload, with saturating arithmetic. */
module EventSizing {
  import opened EventChannel

  /** The largest `usize` */
  const USIZE_MAX: nat := 0xFFFF_FFFF_FFFF_FFFF

  /** A JSON value as the sizing sees it: the capacities its strings, keys and vectors have reserved. */
  datatype Payload =
    | Scalar
    | Text(capacity: nat)
    | Array(capacity: nat, items: seq<Payload>)
    | Object(entries: seq<Entry>)

  datatype Entry = Entry(key: nat, value: Payload)

  function Saturate(n: nat): nat { if n < USIZE_MAX then n else USIZE_MAX }

  /** The full size of a value, without bound and by structure; `slot` is the size of one vector element. */
  function Size(v: Payload, slot: nat): nat {
    128 + match v
          case Scalar => 0
          case Text(capacity) => capacity
          case Array(capacity, items) => capacity * slot + SizeAll(items, slot)
          case Object(entries) => SizeEntries(entries, slot)
  }

  function SizeAll(items: seq<Payload>, slot: nat): nat {
    if items == [] then 0 else Size(items[0], slot) + SizeAll(items[1..], slot)
  }

  function SizeEntries(entries: seq<Entry>, slot: nat): nat {
    if entries == [] then 0 else SizeEntry(entries[0], slot) + SizeEntries(entries[1..], slot)
  }

  function SizeEntry(e: Entry, slot: nat): nat { e.key + 128 + Size(e.value, slot) }

  lemma {:induction false} SizeAllConcat(a: seq<Payload>, b: seq<Payload>, slot: nat)
    ensures SizeAll(a + b, slot) == SizeAll(a, slot) + SizeAll(b, slot)
  {
    if a == [] {
      assert a + b == b;
    } else {
      assert (a + b)[1..] == a[1..] + b;
      SizeAllConcat(a[1..], b, slot);
    }
  }

  lemma SizeAllPush(a: seq<Payload>, v: Payload, slot: nat)
    ensures SizeAll(a + [v], slot) == SizeAll(a, slot) + Size(v, slot)
  {
    SizeAllConcat(a, [v], slot);
    assert SizeAll([v], slot) == Size(v, slot) + SizeAll([], slot);
  }

  lemma SizeAllTake(pending: seq<Payload>, k: nat, slot: nat)
    requires k < |pending|
    ensures SizeAll(pending, slot) == Size(pending[k], slot) + SizeAll(pending[..k] + pending[k + 1..], slot)
  {
    assert pending == pending[..k] + [pending[k]] + pending[k + 1..];
    SizeAllConcat(pending[..k] + [pending[k]], pending[k + 1..], slot);
    SizeAllPush(pending[..k], pending[k], slot);
    SizeAllConcat(pending[..k], pending[k + 1..], slot);
  }

  /** What a payload consists of: values, object entries, bytes of text and keys, and vector slots. */
  datatype Count = Count(values: nat, entries: nat, text: nat, slots: nat)

  function Plus(a: Count, b: Count): Count {
    Count(a.values + b.values, a.entries + b.entries, a.text + b.text, a.slots + b.slots)
  }

  function CountOf(v: Payload): Count {
    match v
    case Scalar => Count(1, 0, 0, 0)
    case Text(capacity) => Count(1, 0, capacity, 0)
    case Array(capacity, items) => Plus(Count(1, 0, 0, capacity), CountAll(items))
    case Object(entries) => Plus(Count(1, 0, 0, 0), CountEntries(entries))
  }

  function CountAll(items: seq<Payload>): Count {
    if items == [] then Count(0, 0, 0, 0) else Plus(CountOf(items[0]), CountAll(items[1..]))
  }

  function CountEntries(entries: seq<Entry>): Count {
    if entries == [] then Count(0, 0, 0, 0) else Plus(CountEntry(entries[0]), CountEntries(entries[1..]))
  }

  function CountEntry(e: Entry): Count { Plus(Count(0, 1, e.key, 0), CountOf(e.value)) }

  function Priced(c: Count, slot: nat): nat { 128 * (c.values + c.entries) + c.text + c.slots * slot }

  lemma PricedPlus(a: Count, b: Count, slot: nat)
    ensures Priced(Plus(a, b), slot) == Priced(a, slot) + Priced(b, slot)
  {
    assert (a.slots + b.slots) * slot == a.slots * slot + b.slots * slot;
  }

  /** The size is 128 bytes for each value and each entry, all text, and one slot for each reserved element. */
  lemma {:induction false} SizeByCount(v: Payload, slot: nat)
    ensures Size(v, slot) == Priced(CountOf(v), slot)
    decreases v
  {
    match v
    case Scalar => assert 0 * slot == 0;
    case Text(_) => assert 0 * slot == 0;
    case Array(capacity, items) =>
      SizeAllByCount(items, slot);
      PricedPlus(Count(1, 0, 0, capacity), CountAll(items), slot);
    case Object(entries) =>
      SizeEntriesByCount(entries, slot);
      PricedPlus(Count(1, 0, 0, 0), CountEntries(entries), slot);
      assert 0 * slot == 0;
  }

  lemma {:induction false} SizeAllByCount(items: seq<Payload>, slot: nat)
    ensures SizeAll(items, slot) == Priced(CountAll(items), slot)
    decreases items
  {
    if items == [] {
      assert 0 * slot == 0;
    } else {
      SizeByCount(items[0], slot);
      SizeAllByCount(items[1..], slot);
      PricedPlus(CountOf(items[0]), CountAll(items[1..]), slot);
    }
  }

  lemma {:induction false} SizeEntriesByCount(entries: seq<Entry>, slot: nat)
    ensures SizeEntries(entries, slot) == Priced(CountEntries(entries), slot)
    decreases entries
  {
    if entries == [] {
      assert 0 * slot == 0;
    } else {
      SizeEntryByCount(entries[0], slot);
      SizeEntriesByCount(entries[1..], slot);
      PricedPlus(CountEntry(entries[0]), CountEntries(entries[1..]), slot);
    }
  }

  lemma {:induction false} SizeEntryByCount(e: Entry, slot: nat)
    ensures SizeEntry(e, slot) == Priced(CountEntry(e), slot)
    decreases e
  {
    SizeByCount(e.value, slot);
    PricedPlus(Count(0, 1, e.key, 0), CountOf(e.value), slot);
    assert 0 * slot == 0;
  }

  /** A size is reported in full up to the control limit, and as the largest number beyond. */
  function Reported(size: nat): nat {
    if size <= 2 * 1024 * 1024 then size else 0xFFFF_FFFF_FFFF_FFFF
  }

  /** Charges the entries of one object and queues their values. Nothing is returned once the limit is passed. */
  method ChargeEntries(entries: seq<Entry>, slot: nat, size0: nat, pending0: seq<Payload>)
    returns (size: nat, pending: seq<Payload>, over: bool)
    requires size0 <= CONTROL_BYTES + 128
    ensures over ==> size0 + SizeEntries(entries, slot) > CONTROL_BYTES
    ensures !over ==> size0 <= size && size + SizeAll(pending, slot) == size0 + SizeAll(pending0, slot) + SizeEntries(entries, slot)
    ensures !over ==> size <= CONTROL_BYTES + 128 && size <= size0 + SizeEntries(entries, slot)
  {
    size, pending, over := size0, pending0, false;
    for i := 0 to |entries|
      invariant size0 <= size <= CONTROL_BYTES + 128
      invariant size + SizeAll(pending, slot) + SizeEntries(entries[i..], slot)
             == size0 + SizeAll(pending0, slot) + SizeEntries(entries, slot)
      invariant size - size0 + SizeEntries(entries[i..], slot) <= SizeEntries(entries, slot)
    {
      assert entries[i..][1..] == entries[i + 1..];
      var e := entries[i];
      size := Saturate(Saturate(size + e.key) + 128);
      if size > CONTROL_BYTES {
        over := true;
        return;
      }
      SizeAllPush(pending, e.value, slot);
      pending := pending + [e.value];
    }
  }

  /** Charges one value and queues what it contains. */
  method ChargeValue(v: Payload, slot: nat, size0: nat, pending0: seq<Payload>)
    returns (size: nat, pending: seq<Payload>, over: bool)
    requires size0 <= CONTROL_BYTES
    ensures over ==> size0 + Size(v, slot) > CONTROL_BYTES
    ensures !over ==> size0 < size <= CONTROL_BYTES
    ensures !over ==> size + SizeAll(pending, slot) == size0 + Size(v, slot) + SizeAll(pending0, slot)
  {
    size, pending, over := Saturate(size0 + 128), pending0, false;
    match v {
    case Scalar =>
    case Text(capacity) => size := Saturate(size + capacity);
    case Array(capacity, items) =>
      size := Saturate(size + Saturate(capacity * slot));
      if size > CONTROL_BYTES {
        over := true;
        return;
      }
      SizeAllConcat(pending, items, slot);
      pending := pending + items;
    case Object(entries) =>
      size, pending, over := ChargeEntries(entries, slot, size, pending);
      if over {
        return;
      }
    }
    over := size > CONTROL_BYTES;
  }

  /** The worklist, taking the pending values in any order: `pick` may depend on the step and on all that is pending. */
  method SizeInOrder(value: Payload, slot: nat, pick: (nat, seq<Payload>) -> nat) returns (size: nat)
    ensures size == Reported(Size(value, slot))
  {
    size := 0;
    var pending, step := [value], 0;
    assert SizeAll(pending, slot) == Size(value, slot) + SizeAll([], slot);
    while pending != []
      invariant size <= CONTROL_BYTES && size + SizeAll(pending, slot) == Size(value, slot)
      decreases CONTROL_BYTES - size
    {
      var k := pick(step, pending) % |pending|;
      step := step + 1;
      SizeAllTake(pending, k, slot);
      var over: bool;
      size, pending, over := ChargeValue(pending[k], slot, size, pending[..k] + pending[k + 1..]);
      if over {
        return USIZE_MAX;
      }
    }
  }

  /** `json_size`: the worklist is a stack. */
  method JsonSize(value: Payload, slot: nat) returns (size: nat)
    ensures size == Reported(Size(value, slot))
  {
    size := SizeInOrder(value, slot, (step, pending: seq<Payload>) => if pending == [] then 0 else |pending| - 1);
  }

  // ---------------------------------------------------------------- whole events

  datatype Event =
    | TopicCallback(topic: nat, payload: Payload)
    | FutureResolve(key: nat, result: Payload)
    | LidarCallback(topic: nat, payload: Payload, points: nat)
    | VideoFrame(data: nat)
    | AudioFrame(samples: nat)

  function ClassOf(e: Event): Class {
    if e.TopicCallback? || e.FutureResolve? then Control else Media
  }

  function JsonOf(e: Event, slot: nat): nat {
    match e
    case TopicCallback(_, payload) => Size(payload, slot)
    case FutureResolve(_, result) => Size(result, slot)
    case LidarCallback(_, payload, _) => Size(payload, slot)
    case _ => 0
  }

  /** The bytes an event really holds. */
  function Footprint(e: Event, slot: nat, base: nat): nat {
    base + JsonOf(e, slot) + match e
                             case TopicCallback(topic, _) => topic
                             case FutureResolve(key, _) => key
                             case LidarCallback(topic, _, points) => topic + points * 4
                             case VideoFrame(data) => data
                             case AudioFrame(samples) => samples * 2
  }

  /** The footprint by kind: text and JSON, four bytes a point coordinate, one a video byte, two an audio sample. */
  lemma FootprintByKind(e: Event, slot: nat, base: nat)
    ensures e.TopicCallback? ==> Footprint(e, slot, base) == base + e.topic + Size(e.payload, slot) && ClassOf(e) == Control
    ensures e.FutureResolve? ==> Footprint(e, slot, base) == base + e.key + Size(e.result, slot) && ClassOf(e) == Control
    ensures e.LidarCallback? ==>
              Footprint(e, slot, base) == base + e.topic + Size(e.payload, slot) + 4 * e.points && ClassOf(e) == Media
    ensures e.VideoFrame? ==> Footprint(e, slot, base) == base + e.data && ClassOf(e) == Media
    ensures e.AudioFrame? ==> Footprint(e, slot, base) == base + 2 * e.samples && ClassOf(e) == Media
  {
  }

  /**
   `event_size`: within the byte limit of its class exactly when the event really is and no JSON payload passes the
   control limit, and then the charge is the event's footprint. An oversized payload is admitted to neither class.
   */
  method EventSize(e: Event, slot: nat, base: nat) returns (kind: Class, bytes: nat)
    ensures kind == ClassOf(e) && bytes <= USIZE_MAX
    ensures bytes <= ByteLimit(kind) <==> Footprint(e, slot, base) <= ByteLimit(kind) && JsonOf(e, slot) <= CONTROL_BYTES
    ensures bytes <= ByteLimit(kind) ==> bytes == Footprint(e, slot, base)
    ensures JsonOf(e, slot) > CONTROL_BYTES ==> bytes == USIZE_MAX
  {
    match e {
    case TopicCallback(topic, payload) =>
      var json := JsonSize(payload, slot);
      kind, bytes := Control, Saturate(topic + json);
    case FutureResolve(key, result) =>
      var json := JsonSize(result, slot);
      kind, bytes := Control, Saturate(key + json);
    case LidarCallback(topic, payload, points) =>
      var json := JsonSize(payload, slot);
      kind, bytes := Media, Saturate(Saturate(topic + json) + Saturate(points * 4));
    case VideoFrame(data) =>
      kind, bytes := Media, Saturate(data);
    case AudioFrame(samples) =>
      kind, bytes := Media, Saturate(samples * 2);
    }
    bytes := Saturate(bytes + base);
  }
}
