/**
 The FU-A depacketizer of section 5.8 of RFC 6184: a class that updates its buffer packet by packet,
 the value-level step it is proved against, and what whole packet histories can make it emit.
 */
module H264Rtp {
  import opened Common

  const FU_A_TYPE: bv8 := 28
  const MAX_NAL_BYTES: nat := 8 * 1024 * 1024

  type Sequence = n: int | 0 <= n < 0x1_0000
  type Timestamp = n: int | 0 <= n < 0x1_0000_0000

  datatype Rtp = Rtp(sequence: Sequence, timestamp: Timestamp)

  datatype State = State(buffer: Bytes, inProgress: bool, nextRtp: Option<Rtp>)

  const IDLE := State([], false, None)

  // ---------------------------------------------------------------- packet syntax

  datatype Mark = Start | Middle | End

  datatype Kind =
    | Rejected
    | SingleNal
    | Fragment(mark: Mark, header: bv8, body: Bytes)

  /** One call: a parsed payload, with its RTP position unless it came through the payload-only entry point. */
  datatype Call = Call(kind: Kind, payload: Bytes, rtp: Option<Rtp>)

  function Parse(payload: Bytes, rtp: Option<Rtp>): Call {
    Call(Classify(payload), payload, rtp)
  }

  // Bit fields of the two FU-A header bytes (sections 1.3 and 5.8 of RFC 6184).
  predicate ForbiddenBit(b: bv8) { b & 0x80 != 0 }
  function UnitType(b: bv8): bv8 { b & 0x1f }
  predicate StartBit(b: bv8) { b & 0x80 != 0 }
  predicate EndBit(b: bv8) { b & 0x40 != 0 }
  predicate ReservedBit(b: bv8) { b & 0x20 != 0 }
  function RebuildHeader(indicator: bv8, fu: bv8): bv8 { (indicator & 0x60) | (fu & 0x1f) }
  predicate NalUnitType(t: bv8) { 1 <= t <= 23 }

  function MarkOf(fu: bv8): Mark {
    if StartBit(fu) then Start else if EndBit(fu) then End else Middle
  }

  /** What sections 5.4 and 5.8 of RFC 6184 make of a payload, with this receiver's limits. */
  function Classify(payload: Bytes): Kind {
    if payload == [] || |payload| > MAX_NAL_BYTES || ForbiddenBit(payload[0]) then Rejected
    else if UnitType(payload[0]) != FU_A_TYPE then
      if NalUnitType(UnitType(payload[0])) then SingleNal else Rejected
    else if |payload| < 2 then Rejected
    else
      var fu := payload[1];
      if (StartBit(fu) && EndBit(fu)) || ReservedBit(fu) || !NalUnitType(UnitType(fu)) then Rejected
      else Fragment(MarkOf(fu), RebuildHeader(payload[0], fu), payload[2..])
  }

  // ---------------------------------------------------------------- sequence numbers

  function WrappingAdd(s: Sequence, d: nat): Sequence {
    (s + d) % 0x1_0000
  }

  function WrappingSub(a: Sequence, b: Sequence): Sequence {
    (a - b) % 0x1_0000
  }

  /** A start that lies in the half range behind the position the open NAL waits for. */
  predicate Stale(rtp: Option<Rtp>, next: Option<Rtp>) {
    rtp.Some? && next.Some? && WrappingSub(rtp.value.sequence, next.value.sequence) >= 0x8000
  }

  function Successor(rtp: Option<Rtp>): Option<Rtp> {
    if rtp.None? then None else Some(Rtp(WrappingAdd(rtp.value.sequence, 1), rtp.value.timestamp))
  }

  // ---------------------------------------------------------------- specification of one call

  predicate Accepts(s: State, f: Kind, rtp: Option<Rtp>)
    requires f.Fragment?
  {
    if f.mark.Start? then !Stale(rtp, s.nextRtp)
    else s.nextRtp == rtp && s.inProgress && s.buffer != [] && s.buffer[0] == f.header
  }

  function Extend(s: State, f: Kind): Bytes
    requires f.Fragment?
  {
    (if f.mark.Start? then [f.header] else s.buffer) + f.body
  }

  function Step(s: State, c: Call): (State, Option<Bytes>) {
    match c.kind
    case Rejected => (IDLE, None)
    case SingleNal => (IDLE, Some(c.payload))
    case Fragment(_, _, _) =>
      if !Accepts(s, c.kind, c.rtp) || |Extend(s, c.kind)| > MAX_NAL_BYTES then (IDLE, None)
      else if c.kind.mark.End? then (IDLE, Some(Extend(s, c.kind)))
      else (State(Extend(s, c.kind), true, Successor(c.rtp)), None)
  }

  /** Holds in every state the receiver reaches: an idle receiver retains nothing, a busy one at most the cap. */
  predicate Valid(s: State) {
    if s.inProgress then 1 <= |s.buffer| <= MAX_NAL_BYTES else s == IDLE
  }

  class Reassembler {
    var buffer: Bytes
    var inProgress: bool
    var nextRtp: Option<Rtp>

    function Abs(): State
      reads this
    {
      State(buffer, inProgress, nextRtp)
    }

    constructor ()
      ensures Abs() == IDLE
    {
      buffer, inProgress, nextRtp := [], false, None;
    }

    method Reset()
      modifies this
      ensures Abs() == IDLE
    {
      buffer := [];
      inProgress := false;
      nextRtp := None;
    }

    method ProcessPayload(payload: Bytes, rtp: Option<Rtp>) returns (nal: Option<Bytes>)
      requires Valid(Abs())
      modifies this
      ensures (Abs(), nal) == Step(old(Abs()), Parse(payload, rtp))
      ensures Valid(Abs())
    {
      if payload == [] || |payload| > MAX_NAL_BYTES || ForbiddenBit(payload[0]) {
        Reset();
        return None;
      }
      var nalType := UnitType(payload[0]);
      if nalType != FU_A_TYPE {
        Reset();
        return if NalUnitType(nalType) then Some(payload) else None;
      }
      if |payload| < 2 {
        Reset();
        return None;
      }
      var fuHeader := payload[1];
      var start := StartBit(fuHeader);
      var end := EndBit(fuHeader);
      if (start && end) || ReservedBit(fuHeader) || !NalUnitType(UnitType(fuHeader)) {
        Reset();
        return None;
      }
      nal := ProcessFragment(start, end, RebuildHeader(payload[0], fuHeader), payload, rtp);
    }

    /** The continuity, header and size checks of ProcessPayload, reached once both header bytes are legal. */
    method ProcessFragment(start: bool, end: bool, header: bv8, payload: Bytes, rtp: Option<Rtp>)
      returns (nal: Option<Bytes>)
      requires Valid(Abs()) && !(start && end) && 2 <= |payload|
      modifies this
      ensures var mark := if start then Start else if end then End else Middle;
              (Abs(), nal) == Step(old(Abs()), Call(Fragment(mark, header, payload[2..]), payload, rtp))
      ensures Valid(Abs())
    {
      if !start && nextRtp != rtp {
        Reset();
        return None;
      }
      if start && rtp.Some? && nextRtp.Some?
         && WrappingSub(rtp.value.sequence, nextRtp.value.sequence) >= 0x8000 {
        Reset();
        return None;
      }
      if start {
        Reset();
        buffer := buffer + [header];
        inProgress := true;
      } else if !inProgress || buffer == [] || buffer[0] != header {
        Reset();
        return None;
      }
      assert Extend(old(Abs()), Fragment(if start then Start else if end then End else Middle, header, payload[2..]))
          == buffer + payload[2..];
      if |payload| - 2 > MAX_NAL_BYTES - |buffer| {
        Reset();
        return None;
      }
      buffer := buffer + payload[2..];
      nextRtp := if rtp.Some? then Some(Rtp(WrappingAdd(rtp.value.sequence, 1), rtp.value.timestamp)) else None;
      if !end {
        return None;
      }
      inProgress := false;
      nextRtp := None;
      nal := Some(buffer);
      buffer := [];
    }
  }

  // ---------------------------------------------------------------- one call, by the bits of its payload

  /** An empty, oversized or forbidden payload abandons what is open and emits nothing. */
  lemma UnusablePacketResets(s: State, payload: Bytes, rtp: Option<Rtp>)
    requires |payload| == 0 || |payload| > 8 * 1024 * 1024 || payload[0] & 0x80 != 0
    ensures Step(s, Parse(payload, rtp)) == (IDLE, None)
  {
  }

  /** A packet that is no FU-A fragment abandons what is open; it is emitted as it is exactly when its type is 1 to 23. */
  lemma UnfragmentedPacketByItsBits(s: State, payload: Bytes, rtp: Option<Rtp>)
    requires |payload| == 0 || payload[0] & 0x1f != 28
    ensures Step(s, Parse(payload, rtp)).0 == IDLE
    ensures Step(s, Parse(payload, rtp)).1 ==
      if 1 <= |payload| <= 8 * 1024 * 1024 && payload[0] & 0x80 == 0 && 1 <= payload[0] & 0x1f <= 23
      then Some(payload) else None
  {
  }

  /** A fragment without its second header byte, with both marks, with the reserved bit or of no NAL type is refused. */
  lemma MalformedFragmentResets(s: State, payload: Bytes, rtp: Option<Rtp>)
    requires |payload| >= 1 && payload[0] & 0x1f == 28
    requires || |payload| == 1
             || (payload[1] & 0x80 != 0 && payload[1] & 0x40 != 0)
             || payload[1] & 0x20 != 0
             || payload[1] & 0x1f == 0 || payload[1] & 0x1f > 23
    ensures Step(s, Parse(payload, rtp)) == (IDLE, None)
  {
  }

  /**
   A start fragment that lies d positions, mod 2^16, from where the open NAL expects its next packet: it is refused as
   stale exactly in the half range behind, and otherwise opens its own NAL, whatever was open before.
   */
  lemma StartIsStaleInTheHalfBehind(s: State, c: Call, d: nat)
    requires c.kind.Fragment? && c.kind.mark.Start? && c.rtp.Some? && s.nextRtp.Some? && d < 0x1_0000
    requires c.rtp.value.sequence == (s.nextRtp.value.sequence + d) % 0x1_0000 && |c.kind.body| < 8 * 1024 * 1024
    ensures d >= 0x8000 ==> Step(s, c) == (IDLE, None)
    ensures d < 0x8000 ==> Step(s, c).0.inProgress && Step(s, c).0.buffer == [c.kind.header] + c.kind.body
    ensures d < 0x8000 ==>
      Step(s, c).0.nextRtp == Some(Rtp((c.rtp.value.sequence + 1) % 0x1_0000, c.rtp.value.timestamp)) && Step(s, c).1 == None
  {
    assert WrappingSub(c.rtp.value.sequence, s.nextRtp.value.sequence) == d;
  }

  // ---------------------------------------------------------------- histories

  function StateAfter(s: State, ps: seq<Call>): State {
    if ps == [] then s else Step(StateAfter(s, ps[..|ps| - 1]), ps[|ps| - 1]).0
  }

  /** What call `i` of a history that began in state `s` returned. */
  function Emitted(s: State, ps: seq<Call>, i: nat): Option<Bytes>
    requires i < |ps|
  {
    Step(StateAfter(s, ps[..i]), ps[i]).1
  }

  lemma {:induction false} StateAfterPrefix(s: State, ps: seq<Call>, i: nat)
    requires i < |ps|
    ensures StateAfter(s, ps[..i + 1]) == Step(StateAfter(s, ps[..i]), ps[i]).0
  {
    assert ps[..i + 1][..i] == ps[..i];
  }

  lemma {:induction false} StateAfterCons(s: State, p: Call, ps: seq<Call>)
    ensures StateAfter(s, [p] + ps) == StateAfter(Step(s, p).0, ps)
  {
    if ps == [] {
      assert [p] + ps == [p];
      assert [p][..0] == [];
    } else {
      assert ([p] + ps)[..|ps|] == [p] + ps[..|ps| - 1];
      StateAfterCons(s, p, ps[..|ps| - 1]);
    }
  }

  /** Bounded retention over every history, through either entry point. */
  lemma {:induction false} HistoryValid(s: State, ps: seq<Call>)
    requires Valid(s)
    ensures Valid(StateAfter(s, ps)) && |StateAfter(s, ps).buffer| <= 8 * 1024 * 1024
  {
    if ps == [] {
    } else {
      HistoryValid(s, ps[..|ps| - 1]);
    }
  }

  // ---------------------------------------------------------------- where emitted bytes come from

  ghost predicate AllFragments(seg: seq<Call>) {
    forall k :: 0 <= k < |seg| ==> seg[k].kind.Fragment?
  }

  ghost function Bodies(seg: seq<Call>): Bytes
    requires AllFragments(seg)
  {
    if seg == [] then [] else Bodies(seg[..|seg| - 1]) + seg[|seg| - 1].kind.body
  }

  /** A start fragment followed by unmarked-as-start fragments of the same NAL header, at consecutive RTP positions. */
  ghost predicate Chain(seg: seq<Call>) {
    && seg != []
    && AllFragments(seg)
    && (forall k :: 0 <= k < |seg| ==> seg[k].kind.mark.Start? == (k == 0))
    && (forall k :: 0 <= k < |seg| ==> seg[k].kind.header == seg[0].kind.header)
    && (forall k :: 0 < k < |seg| ==> seg[k].rtp == Successor(seg[k - 1].rtp))
  }

  ghost function Joined(seg: seq<Call>): Bytes
    requires seg != [] && AllFragments(seg)
  {
    [seg[0].kind.header] + Bodies(seg)
  }

  /** A chain whose last packet, and no other, carries the end bit. */
  ghost predicate CompleteChain(seg: seq<Call>) {
    && Chain(seg)
    && forall k :: 0 <= k < |seg| ==> seg[k].kind.mark.End? == (k == |seg| - 1)
  }

  ghost predicate OpenChain(seg: seq<Call>) {
    Chain(seg) && forall k :: 0 <= k < |seg| ==> !seg[k].kind.mark.End?
  }

  ghost predicate Explains(ps: seq<Call>, j: nat, s: State) {
    && j < |ps|
    && OpenChain(ps[j..])
    && s.buffer == Joined(ps[j..])
    && s.nextRtp == Successor(ps[|ps| - 1].rtp)
  }

  lemma {:induction false} ChainSnoc(seg: seq<Call>, c: Call)
    requires Chain(seg) && c.kind.Fragment? && !c.kind.mark.Start?
    requires c.kind.header == seg[0].kind.header && c.rtp == Successor(seg[|seg| - 1].rtp)
    ensures Chain(seg + [c])
    ensures Joined(seg + [c]) == Joined(seg) + c.kind.body
  {
    assert (seg + [c])[..|seg|] == seg;
  }

  lemma SingletonChain(c: Call)
    requires c.kind.Fragment? && c.kind.mark.Start?
    ensures Chain([c]) && Joined([c]) == [c.kind.header] + c.kind.body
  {
    assert [c][..0] == [];
    assert Bodies([c]) == Bodies([]) + c.kind.body;
  }

  /** Every open NAL is the join of the packets received since its own start fragment, with nothing in between. */
  lemma {:induction false} OpenNalProvenance(ps: seq<Call>) returns (j: nat)
    requires StateAfter(IDLE, ps).inProgress
    ensures Explains(ps, j, StateAfter(IDLE, ps))
  {
    var n := |ps| - 1;
    var f := ps[n].kind;
    if f.mark.Start? {
      j := n;
      assert ps[n..] == [ps[n]];
      SingletonChain(ps[n]);
    } else {
      j := OpenNalProvenance(ps[..n]);
      assert ps[j..] == ps[..n][j..] + [ps[n]];
      ChainSnoc(ps[..n][j..], ps[n]);
    }
  }

  lemma EmittedChain(ps: seq<Call>, i: nat) returns (j: nat)
    requires i < |ps| && ps[i].kind.Fragment? && Emitted(IDLE, ps, i).Some?
    ensures j < i && CompleteChain(ps[j..i + 1])
    ensures Emitted(IDLE, ps, i) == Some(Joined(ps[j..i + 1]))
  {
    j := OpenNalProvenance(ps[..i]);
    assert ps[j..i + 1] == ps[..i][j..] + [ps[i]];
    ChainSnoc(ps[..i][j..], ps[i]);
  }

  /**
   A NAL emitted by an FU-A packet is exactly the join of an unbroken run of calls ending in that packet: one
   header, one timestamp, sequence numbers consecutive mod 2^16, started by a start fragment and ended by this one.
   */
  lemma {:induction false} FragmentedNalProvenance(ps: seq<Call>, i: nat) returns (j: nat)
    requires i < |ps| && ps[i].kind.Fragment? && Emitted(IDLE, ps, i).Some?
    ensures j < i
    ensures CompleteChain(ps[j..i + 1])
    ensures Emitted(IDLE, ps, i) == Some(Joined(ps[j..i + 1]))
    ensures forall k :: j <= k < i && ps[k].rtp.Some? ==>
              && ps[k + 1].rtp.Some?
              && ps[k + 1].rtp.value.sequence == (ps[k].rtp.value.sequence + 1) % 0x1_0000
              && ps[k + 1].rtp.value.timestamp == ps[k].rtp.value.timestamp
  {
    j := EmittedChain(ps, i);
    var seg := ps[j..i + 1];
    forall k | j <= k < i
      ensures ps[k + 1].rtp == Successor(ps[k].rtp)
    {
      assert seg[k + 1 - j] == ps[k + 1] && seg[k - j] == ps[k];
    }
  }

  // ---------------------------------------------------------------- the sender of section 5.8 of RFC 6184

  /** What a sender transmits: a payload that is a packet by itself, or a NAL cut into two or more fragments. */
  datatype Unit =
    | Whole(payload: Bytes, timestamp: Timestamp)
    | Fragmented(header: bv8, timestamp: Timestamp, parts: seq<Bytes>)

  predicate WellFormed(u: Unit) {
    match u
    case Whole(payload, _) => payload == [] || UnitType(payload[0]) != FU_A_TYPE
    case Fragmented(_, _, parts) => |parts| >= 2
  }

  function Nal(u: Unit): Bytes {
    if u.Whole? then u.payload else [u.header] + Concat(u.parts)
  }

  function FuIndicator(header: bv8): bv8 { (header & 0xe0) | FU_A_TYPE }

  function FuHeader(header: bv8, mark: Mark): bv8 {
    (header & 0x1f) | (match mark case Start => 0x80 case Middle => 0 case End => 0x40)
  }

  function MarkAt(k: nat, n: nat): Mark {
    if k == 0 then Start else if k + 1 == n then End else Middle
  }

  function PacketCount(u: Unit): nat {
    if u.Whole? then 1 else |u.parts|
  }

  function PayloadAt(u: Unit, k: nat): Bytes
    requires k < PacketCount(u)
  {
    if u.Whole? then u.payload
    else [FuIndicator(u.header), FuHeader(u.header, MarkAt(k, |u.parts|))] + u.parts[k]
  }

  datatype Sent = Sent(payload: Bytes, timestamp: Timestamp)

  function UnitPackets(u: Unit): seq<Sent> {
    seq(PacketCount(u), k requires 0 <= k < PacketCount(u) => Sent(PayloadAt(u, k), u.timestamp))
  }

  function Stream(units: seq<Unit>): seq<Sent> {
    if units == [] then [] else UnitPackets(units[0]) + Stream(units[1..])
  }

  predicate HeaderUsable(header: bv8) {
    !ForbiddenBit(header) && NalUnitType(UnitType(header))
  }

  lemma HeaderFields(header: bv8, mark: Mark)
    ensures ForbiddenBit(FuIndicator(header)) == ForbiddenBit(header)
    ensures UnitType(FuIndicator(header)) == FU_A_TYPE
    ensures UnitType(FuHeader(header, mark)) == UnitType(header)
    ensures StartBit(FuHeader(header, mark)) == mark.Start? && EndBit(FuHeader(header, mark)) == mark.End?
    ensures !ReservedBit(FuHeader(header, mark))
    ensures !ForbiddenBit(header) ==> RebuildHeader(FuIndicator(header), FuHeader(header, mark)) == header
  {
  }

  /** The receiver's parse inverts the sender's fragmentation, within the size cap. */
  lemma FragmentRoundTrip(u: Unit, k: nat)
    requires u.Fragmented? && k < |u.parts|
    ensures Classify(PayloadAt(u, k)) ==
            if HeaderUsable(u.header) && |u.parts[k]| + 2 <= MAX_NAL_BYTES
            then Fragment(MarkAt(k, |u.parts|), u.header, u.parts[k])
            else Rejected
  {
    HeaderFields(u.header, MarkAt(k, |u.parts|));
    assert PayloadAt(u, k)[2..] == u.parts[k];
  }

  // ---------------------------------------------------------------- delivery in order

  function RtpAt(first: Option<Rtp>, k: nat): Option<Rtp> {
    if first.None? then None
    else Some(Rtp(WrappingAdd(first.value.sequence, k), first.value.timestamp))
  }

  lemma RtpAtSuccessor(first: Option<Rtp>, k: nat)
    ensures Successor(RtpAt(first, k)) == RtpAt(first, k + 1)
    ensures RtpAt(first, 0) == first
  {
  }

  /** The calls that deliver every packet of the unit in order, through either entry point. */
  function UnitCalls(u: Unit, first: Option<Rtp>): seq<Call> {
    seq(PacketCount(u), k requires 0 <= k < PacketCount(u) => Parse(PayloadAt(u, k), RtpAt(first, k)))
  }

  /** The calls a fragmented NAL causes, with the parse of each packet already made. */
  ghost predicate FragmentCalls(calls: seq<Call>, header: bv8, usable: bool, parts: seq<Bytes>, first: Option<Rtp>) {
    && |calls| == |parts|
    && forall k :: 0 <= k < |calls| ==>
         && calls[k].rtp == RtpAt(first, k)
         && calls[k].kind == PartKind(MarkAt(k, |parts|), header, usable, parts[k])
  }

  lemma UnitCallsAreFragmentCalls(u: Unit, first: Option<Rtp>)
    requires u.Fragmented?
    ensures FragmentCalls(UnitCalls(u, first), u.header, HeaderUsable(u.header), u.parts, first)
  {
    forall k | 0 <= k < |u.parts| {
      FragmentRoundTrip(u, k);
    }
  }

  predicate Fits(usable: bool, parts: seq<Bytes>) {
    && usable
    && (forall i :: 0 <= i < |parts| ==> |parts[i]| + 2 <= MAX_NAL_BYTES)
    && 1 + |Concat(parts)| <= MAX_NAL_BYTES
  }

  lemma {:induction false} FitsStep(usable: bool, parts: seq<Bytes>, k: nat)
    requires k < |parts|
    ensures Concat(parts[..k + 1]) == Concat(parts[..k]) + parts[k]
    ensures Fits(usable, parts[..k + 1]) <==>
            Fits(usable, parts[..k]) && |parts[k]| + 2 <= MAX_NAL_BYTES && 1 + |Concat(parts[..k + 1])| <= MAX_NAL_BYTES
  {
    assert parts[..k + 1] == parts[..k] + [parts[k]];
    ConcatSnoc(parts[..k], parts[k]);
  }

  ghost function OpenState(header: bv8, usable: bool, done: seq<Bytes>, next: Option<Rtp>): State {
    if Fits(usable, done) then State([header] + Concat(done), true, next) else IDLE
  }

  /** The parse of a fragment packet with this mark and part. */
  function PartKind(mark: Mark, header: bv8, usable: bool, part: Bytes): Kind {
    if usable && |part| + 2 <= MAX_NAL_BYTES then Fragment(mark, header, part) else Rejected
  }

  lemma FitsSnoc(usable: bool, done: seq<Bytes>, part: Bytes)
    ensures Concat(done + [part]) == Concat(done) + part
    ensures Fits(usable, done + [part]) <==>
            Fits(usable, done) && |part| + 2 <= MAX_NAL_BYTES && 1 + |Concat(done + [part])| <= MAX_NAL_BYTES
  {
    FitsStep(usable, done + [part], |done|);
    assert (done + [part])[..|done| + 1] == done + [part] && (done + [part])[..|done|] == done;
  }

  lemma FirstCall(s: State, c: Call, header: bv8, usable: bool, part: Bytes)
    requires !Stale(c.rtp, s.nextRtp) && c.kind == PartKind(Start, header, usable, part)
    ensures Step(s, c) == (OpenState(header, usable, [part], Successor(c.rtp)), None)
  {
    FitsSnoc(usable, [], part);
    assert [] + [part] == [part] && Concat([]) + part == part;
    if c.kind.Fragment? {
      assert Extend(s, c.kind) == [header] + part;
    }
  }

  lemma NextCall(c: Call, header: bv8, usable: bool, done: seq<Bytes>, part: Bytes)
    requires c.kind == PartKind(Middle, header, usable, part)
    ensures Step(OpenState(header, usable, done, c.rtp), c)
         == (OpenState(header, usable, done + [part], Successor(c.rtp)), None)
  {
    FitsSnoc(usable, done, part);
    assert [header] + Concat(done) + part == [header] + Concat(done + [part]);
  }

  lemma LastCall(c: Call, header: bv8, usable: bool, done: seq<Bytes>, part: Bytes)
    requires c.kind == PartKind(End, header, usable, part)
    ensures Step(OpenState(header, usable, done, c.rtp), c)
         == (IDLE, if Fits(usable, done + [part]) then Some([header] + Concat(done + [part])) else None)
  {
    FitsSnoc(usable, done, part);
    assert [header] + Concat(done) + part == [header] + Concat(done + [part]);
  }

  lemma {:induction false} PrefixState(
    s: State, calls: seq<Call>, header: bv8, usable: bool, parts: seq<Bytes>, first: Option<Rtp>, k: nat)
    requires FragmentCalls(calls, header, usable, parts, first) && 1 <= k < |parts|
    requires !Stale(first, s.nextRtp)
    ensures StateAfter(s, calls[..k]) == OpenState(header, usable, parts[..k], RtpAt(first, k))
    ensures Emitted(s, calls, k - 1) == None
  {
    var j := k - 1;
    var before, after := StateAfter(s, calls[..j]), OpenState(header, usable, parts[..k], RtpAt(first, k));
    RtpAtSuccessor(first, j);
    assert parts[..k] == parts[..j] + [parts[j]];
    if j == 0 {
      assert calls[..0] == [] && parts[..1] == [parts[0]];
      FirstCall(s, calls[0], header, usable, parts[0]);
    } else {
      PrefixState(s, calls, header, usable, parts, first, j);
      NextCall(calls[j], header, usable, parts[..j], parts[j]);
    }
    SilentCall(s, calls, j, before, after);
  }

  lemma SilentCall(s: State, calls: seq<Call>, j: nat, before: State, after: State)
    requires j < |calls| && before == StateAfter(s, calls[..j]) && Step(before, calls[j]) == (after, None)
    ensures StateAfter(s, calls[..j + 1]) == after && Emitted(s, calls, j) == None
  {
    StateAfterPrefix(s, calls, j);
  }

  /** Within every limit the receiver imposes: a legal header, fragment packets and a NAL no longer than the cap. */
  predicate Deliverable(u: Unit)
    requires u.Fragmented?
  {
    Fits(HeaderUsable(u.header), u.parts)
  }

  /**
   From any state, a NAL whose start is not stale comes back byte for byte, at its last fragment and not before,
   exactly when its header is usable, every fragment packet is within the cap and the NAL is within the cap.
   */
  lemma {:induction false} DeliveredExactlyWhenItFits(s: State, u: Unit, first: Option<Rtp>)
    requires u.Fragmented? && WellFormed(u)
    requires !Stale(first, s.nextRtp)
    ensures forall k :: 0 <= k < |u.parts| - 1 ==> Emitted(s, UnitCalls(u, first), k) == None
    ensures Emitted(s, UnitCalls(u, first), |u.parts| - 1) == if Deliverable(u) then Some(Nal(u)) else None
    ensures StateAfter(s, UnitCalls(u, first)) == IDLE
  {
    UnitCallsAreFragmentCalls(u, first);
    FragmentCallsDeliver(s, UnitCalls(u, first), u.header, HeaderUsable(u.header), u.parts, first);
  }

  lemma {:induction false} FragmentCallsDeliver(
    s: State, calls: seq<Call>, header: bv8, usable: bool, parts: seq<Bytes>, first: Option<Rtp>)
    requires FragmentCalls(calls, header, usable, parts, first) && 2 <= |parts|
    requires !Stale(first, s.nextRtp)
    ensures forall k :: 0 <= k < |parts| - 1 ==> Emitted(s, calls, k) == None
    ensures Emitted(s, calls, |parts| - 1) == if Fits(usable, parts) then Some([header] + Concat(parts)) else None
    ensures StateAfter(s, calls) == IDLE
  {
    var n := |parts|;
    forall k | 0 <= k < n - 1
      ensures Emitted(s, calls, k) == None
    {
      PrefixState(s, calls, header, usable, parts, first, k + 1);
    }
    PrefixState(s, calls, header, usable, parts, first, n - 1);
    LastCall(calls[n - 1], header, usable, parts[..n - 1], parts[n - 1]);
    assert parts == parts[..n - 1] + [parts[n - 1]];
  }

  /**
   The cap on the NAL alone does not decide: one whose bytes fit exactly, sent as a single large fragment and an empty
   last one, is lost, because the large packet carries two bytes of its own.
   */
  lemma NalWithinCapCanBeLost(s: State, timestamp: Timestamp, body: Bytes, first: Option<Rtp>) returns (u: Unit)
    requires |body| == MAX_NAL_BYTES - 1 && !Stale(first, s.nextRtp)
    ensures u == Fragmented(0x65, timestamp, [body, []]) && WellFormed(u) && HeaderUsable(u.header)
    ensures |Nal(u)| == 8 * 1024 * 1024 && !Deliverable(u)
    ensures Emitted(s, UnitCalls(u, first), 0) == None && Emitted(s, UnitCalls(u, first), 1) == None
  {
    u := Fragmented(0x65, timestamp, [body, []]);
    assert Concat([body] + [[]]) == body + [] by {
      ConcatSnoc([body], []);
      ConcatSnoc([], body);
      assert [] + [body] == [body];
    }
    assert [body] + [[]] == u.parts;
    assert |u.parts[0]| + 2 > MAX_NAL_BYTES;
    DeliveredExactlyWhenItFits(s, u, first);
  }

  /** A rejected stale start abandons everything, so whatever NAL starts next is judged on its own size alone. */
  lemma {:induction false} StaleStartThenFreshNal(s: State, c: Call, u: Unit, first: Option<Rtp>)
    requires c.kind.Fragment? && c.kind.mark.Start? && Stale(c.rtp, s.nextRtp)
    requires u.Fragmented? && WellFormed(u) && Deliverable(u)
    ensures Step(s, c) == (IDLE, None)
    ensures Emitted(Step(s, c).0, UnitCalls(u, first), |u.parts| - 1) == Some(Nal(u))
  {
    DeliveredExactlyWhenItFits(IDLE, u, first);
  }

  // ---------------------------------------------------------------- delivery over a lossy network

  /** The receiver's calls when the network hands over the stream's packets with these positions, in this order. */
  function Deliveries(stream: seq<Sent>, base: Sequence, picks: seq<nat>): seq<Call>
    requires forall i :: 0 <= i < |picks| ==> picks[i] < |stream|
  {
    seq(|picks|, i requires 0 <= i < |picks| =>
      Parse(stream[picks[i]].payload, Some(Rtp(WrappingAdd(base, picks[i]), stream[picks[i]].timestamp))))
  }

  lemma SliceOfTail(head: seq<Sent>, tail: seq<Sent>, from: nat, n: nat)
    requires from + n <= |tail|
    ensures (head + tail)[|head| + from..|head| + from + n] == tail[from..from + n]
  {
  }

  lemma StartIsFirst(u: Unit, a: nat)
    requires WellFormed(u) && a < PacketCount(u)
    requires Classify(PayloadAt(u, a)).Fragment? && Classify(PayloadAt(u, a)).mark.Start?
    ensures u.Fragmented? && HeaderUsable(u.header) && a == 0
  {
    if u.Fragmented? {
      FragmentRoundTrip(u, a);
    }
  }

  /** The unit's packets lie together in the stream from position `at`. */
  ghost predicate LiesAt(stream: seq<Sent>, u: Unit, at: nat) {
    at + PacketCount(u) <= |stream| && stream[at..at + PacketCount(u)] == UnitPackets(u)
  }

  lemma LiesAfter(head: seq<Sent>, tail: seq<Sent>, u: Unit, at: nat)
    requires LiesAt(tail, u, at)
    ensures LiesAt(head + tail, u, |head| + at)
  {
    SliceOfTail(head, tail, at, PacketCount(u));
  }

  /** Every packet of the stream belongs to some unit, whose packets lie together around it. */
  lemma {:induction false} PacketOfUnit(units: seq<Unit>, a: nat) returns (u: Unit, at: nat)
    requires a < |Stream(units)|
    ensures u in units && at <= a < at + PacketCount(u) && LiesAt(Stream(units), u, at)
  {
    var head, tail := UnitPackets(units[0]), Stream(units[1..]);
    assert |head| == PacketCount(units[0]);
    if a < |head| {
      u, at := units[0], 0;
      assert (head + tail)[..|head|] == head;
    } else {
      u, at := PacketOfUnit(units[1..], a - |head|);
      LiesAfter(head, tail, u, at);
      at := |head| + at;
    }
  }

  lemma PacketAt(stream: seq<Sent>, u: Unit, at: nat, a: nat)
    requires LiesAt(stream, u, at) && at <= a < at + PacketCount(u)
    ensures stream[a].payload == PayloadAt(u, a - at)
  {
    assert stream[a] == stream[at..at + PacketCount(u)][a - at];
  }

  /** Only a unit's first packet is a start fragment, and the rest of the unit follows it in the stream. */
  lemma {:induction false} StartOpensUnit(units: seq<Unit>, a: nat) returns (u: Unit)
    requires forall i :: 0 <= i < |units| ==> WellFormed(units[i])
    requires a < |Stream(units)|
    requires Classify(Stream(units)[a].payload).Fragment? && Classify(Stream(units)[a].payload).mark.Start?
    ensures u in units && u.Fragmented? && HeaderUsable(u.header)
    ensures a + |u.parts| <= |Stream(units)|
    ensures Stream(units)[a..a + |u.parts|] == UnitPackets(u)
  {
    var at;
    u, at := PacketOfUnit(units, a);
    assert WellFormed(u);
    PacketAt(Stream(units), u, at, a);
    StartIsFirst(u, a - at);
    assert at == a && PacketCount(u) == |u.parts|;
  }

  lemma FirstPacketContinuesNothing(units: seq<Unit>)
    requires forall i :: 0 <= i < |units| ==> WellFormed(units[i])
    requires Stream(units) != []
    ensures var k := Classify(Stream(units)[0].payload); k.Fragment? ==> k.mark.Start?
  {
    var u := units[0];
    assert Stream(units)[0] == UnitPackets(u)[0];
    if u.Fragmented? {
      FragmentRoundTrip(u, 0);
    }
  }

  lemma SequenceIdentifiesPacket(base: Sequence, a: nat, b: nat)
    requires a < 0x1_0000 && b < 0x1_0000
    requires WrappingAdd(base, b) == WrappingAdd(WrappingAdd(base, a), 1)
    ensures b == a + 1 || b == 0
  {
  }

  /** With at most 2^16 packets in flight, a sequence number identifies the packet: a chain is contiguous in the stream. */
  lemma {:induction false} ChainIsContiguous(units: seq<Unit>, base: Sequence, picks: seq<nat>, k: nat)
    requires forall i :: 0 <= i < |units| ==> WellFormed(units[i])
    requires |Stream(units)| <= 0x1_0000
    requires forall i :: 0 <= i < |picks| ==> picks[i] < |Stream(units)|
    requires k < |picks| && Chain(Deliveries(Stream(units), base, picks))
    ensures picks[k] == picks[0] + k
  {
    if k == 0 {
    } else {
      ChainIsContiguous(units, base, picks, k - 1);
      var calls := Deliveries(Stream(units), base, picks);
      assert calls[k].rtp == Successor(calls[k - 1].rtp);
      SequenceIdentifiesPacket(base, picks[k - 1], picks[k]);
      FirstPacketContinuesNothing(units);
    }
  }

  lemma {:induction false} BodiesAreParts(seg: seq<Call>, parts: seq<Bytes>)
    requires AllFragments(seg) && |seg| == |parts|
    requires forall k :: 0 <= k < |seg| ==> seg[k].kind.body == parts[k]
    ensures Bodies(seg) == Concat(parts)
  {
    if seg == [] {
    } else {
      var n := |seg| - 1;
      BodiesAreParts(seg[..n], parts[..n]);
      assert parts == parts[..n] + [parts[n]];
      ConcatSnoc(parts[..n], parts[n]);
    }
  }

  /** Packet k of a chain that starts with a unit is packet k of that unit. */
  lemma ChainPartKind(units: seq<Unit>, base: Sequence, picks: seq<nat>, seg: seq<Call>, u: Unit, k: nat)
    requires forall i :: 0 <= i < |units| ==> WellFormed(units[i])
    requires |Stream(units)| <= 0x1_0000
    requires forall i :: 0 <= i < |picks| ==> picks[i] < |Stream(units)|
    requires seg == Deliveries(Stream(units), base, picks) && k < |picks| && Chain(seg)
    requires u.Fragmented? && k < |u.parts| && picks[0] + |u.parts| <= |Stream(units)|
    requires Stream(units)[picks[0]..picks[0] + |u.parts|] == UnitPackets(u)
    ensures seg[k].kind == Fragment(MarkAt(k, |u.parts|), u.header, u.parts[k])
  {
    ChainIsContiguous(units, base, picks, k);
    assert seg[k].kind.Fragment? && seg[k].kind == Classify(Stream(units)[picks[0] + k].payload);
    StreamPacketKind(Stream(units), picks[0], u, k);
  }

  lemma {:induction false} CompleteChainIsUnit(units: seq<Unit>, base: Sequence, picks: seq<nat>, seg: seq<Call>) returns (u: Unit)
    requires forall i :: 0 <= i < |units| ==> WellFormed(units[i])
    requires |Stream(units)| <= 0x1_0000
    requires forall i :: 0 <= i < |picks| ==> picks[i] < |Stream(units)|
    requires seg == Deliveries(Stream(units), base, picks) && CompleteChain(seg)
    ensures u in units && Joined(seg) == Nal(u)
  {
    assert seg[0].kind.mark.Start?;
    u := StartOpensUnit(units, picks[0]);
    forall k | 0 <= k < |u.parts| && k < |picks|
      ensures seg[k].kind == Fragment(MarkAt(k, |u.parts|), u.header, u.parts[k])
    {
      ChainPartKind(units, base, picks, seg, u, k);
    }
    assert WellFormed(u);
    JoinedIsNal(seg, u.header, u.parts);
  }

  lemma StreamPacketKind(stream: seq<Sent>, a: nat, u: Unit, k: nat)
    requires u.Fragmented? && k < |u.parts| && a + |u.parts| <= |stream|
    requires stream[a..a + |u.parts|] == UnitPackets(u)
    requires Classify(stream[a + k].payload).Fragment?
    ensures Classify(stream[a + k].payload) == Fragment(MarkAt(k, |u.parts|), u.header, u.parts[k])
  {
    assert stream[a + k] == stream[a..a + |u.parts|][k] == UnitPackets(u)[k];
    FragmentRoundTrip(u, k);
  }

  lemma {:induction false} JoinedIsNal(seg: seq<Call>, header: bv8, parts: seq<Bytes>)
    requires CompleteChain(seg) && 2 <= |parts|
    requires forall k :: 0 <= k < |parts| && k < |seg| ==> seg[k].kind == Fragment(MarkAt(k, |parts|), header, parts[k])
    ensures Joined(seg) == [header] + Concat(parts)
  {
    var n, m := |parts|, |seg|;
    assert seg[m - 1].kind.mark.End?;
    assert n <= m;
    assert seg[n - 1].kind.mark.End?;
    BodiesAreParts(seg, parts);
  }

  /**
   However the network loses, repeats or reorders the packets of a stream of at most 2^16 packets, whatever the
   receiver emits is a NAL the sender sent.
   */
  lemma {:induction false} LossyNetworkEmitsOnlySentNals(units: seq<Unit>, base: Sequence, picks: seq<nat>, i: nat)
    requires forall k :: 0 <= k < |units| ==> WellFormed(units[k])
    requires |Stream(units)| <= 0x1_0000
    requires forall k :: 0 <= k < |picks| ==> picks[k] < |Stream(units)|
    requires i < |picks|
    ensures var nal := Emitted(IDLE, Deliveries(Stream(units), base, picks), i);
            nal.Some? ==> exists u :: u in units && Nal(u) == nal.value
  {
    var calls := Deliveries(Stream(units), base, picks);
    if Emitted(IDLE, calls, i).Some? {
      if calls[i].kind.Fragment? {
        var u := EmittedFragmentsAreUnit(units, base, picks, calls, i);
      } else {
        var u := PacketIsItsUnit(units, picks[i]);
      }
    }
  }

  lemma EmittedFragmentsAreUnit(units: seq<Unit>, base: Sequence, picks: seq<nat>, calls: seq<Call>, i: nat) returns (u: Unit)
    requires forall k :: 0 <= k < |units| ==> WellFormed(units[k])
    requires |Stream(units)| <= 0x1_0000
    requires forall k :: 0 <= k < |picks| ==> picks[k] < |Stream(units)|
    requires calls == Deliveries(Stream(units), base, picks)
    requires i < |calls| && calls[i].kind.Fragment? && Emitted(IDLE, calls, i).Some?
    ensures u in units && Emitted(IDLE, calls, i) == Some(Nal(u))
  {
    var stream := Stream(units);
    var j := EmittedChain(calls, i);
    var part := picks[j..i + 1];
    DeliveriesSlice(stream, base, picks, j, i + 1);
    u := CompleteChainIsUnit(units, base, part, calls[j..i + 1]);
  }

  lemma DeliveriesSlice(stream: seq<Sent>, base: Sequence, picks: seq<nat>, lo: nat, hi: nat)
    requires lo <= hi <= |picks|
    requires forall k :: 0 <= k < |picks| ==> picks[k] < |stream|
    ensures forall k :: 0 <= k < hi - lo ==> picks[lo..hi][k] < |stream|
    ensures Deliveries(stream, base, picks)[lo..hi] == Deliveries(stream, base, picks[lo..hi])
  {
  }

  lemma {:induction false} PacketIsItsUnit(units: seq<Unit>, a: nat) returns (u: Unit)
    requires a < |Stream(units)| && Classify(Stream(units)[a].payload).SingleNal?
    ensures u in units && Nal(u) == Stream(units)[a].payload
  {
    var at;
    u, at := PacketOfUnit(units, a);
    PacketAt(Stream(units), u, at, a);
    if u.Fragmented? {
      FragmentRoundTrip(u, a - at);
    }
  }

  // ---------------------------------------------------------------- a whole stream delivered in order

  /** What the calls of a history emit, in order. */
  function Output(s: State, calls: seq<Call>): seq<Bytes>
    decreases calls
  {
    if calls == [] then [] else
      var (s', nal) := Step(s, calls[0]);
      (if nal.Some? then [nal.value] else []) + Output(s', calls[1..])
  }

  lemma {:induction false} OutputConcat(s: State, a: seq<Call>, b: seq<Call>)
    ensures Output(s, a + b) == Output(s, a) + Output(StateAfter(s, a), b)
    decreases a
  {
    if a == [] {
      assert a + b == b;
    } else {
      var s' := Step(s, a[0]).0;
      assert (a + b)[1..] == a[1..] + b;
      OutputConcat(s', a[1..], b);
      assert [a[0]] + a[1..] == a;
      StateAfterCons(s, a[0], a[1..]);
    }
  }

  /** A history that emits nothing before its last call outputs what that call emits. */
  lemma {:induction false} OutputAtEnd(s: State, calls: seq<Call>, n: nat)
    requires n < |calls| && forall k :: 0 <= k < n ==> Emitted(s, calls, k) == None
    ensures Output(s, calls[..n]) == []
    ensures var last := Emitted(s, calls, n);
            Output(s, calls[..n + 1]) == if last.Some? then [last.value] else []
  {
    if n == 0 {
      assert calls[..0] == [];
    } else {
      OutputAtEnd(s, calls, n - 1);
      assert Emitted(s, calls, n - 1) == None;
    }
    OutputNext(s, calls, n, Emitted(s, calls, n));
  }

  lemma OutputNext(s: State, calls: seq<Call>, n: nat, nal: Option<Bytes>)
    requires n < |calls| && nal == Emitted(s, calls, n)
    ensures Output(s, calls[..n + 1]) == Output(s, calls[..n]) + if nal.Some? then [nal.value] else []
  {
    assert calls[..n + 1] == calls[..n] + [calls[n]];
    OutputConcat(s, calls[..n], [calls[n]]);
    OutputOne(StateAfter(s, calls[..n]), calls[n]);
  }

  lemma OutputOne(s: State, c: Call)
    ensures Output(s, [c]) == if Step(s, c).1.Some? then [Step(s, c).1.value] else []
  {
    assert [c][1..] == [];
  }

  /** Which units come back: whole packets whose first byte names a NAL of type 1 to 23, and fragmented NALs within the limits. */
  predicate ComesBack(u: Unit) {
    if u.Whole? then 1 <= |u.payload| <= 8 * 1024 * 1024 && u.payload[0] & 0x80 == 0 && 1 <= u.payload[0] & 0x1f <= 23
    else Deliverable(u)
  }

  function Delivered(units: seq<Unit>): seq<Bytes> {
    if units == [] then [] else (if ComesBack(units[0]) then [Nal(units[0])] else []) + Delivered(units[1..])
  }

  /** Every packet of the stream once, in order, numbered from `base` with wrap-around. */
  function InOrder(units: seq<Unit>, base: Sequence): seq<Call> {
    if units == [] then [] else
      UnitCalls(units[0], Some(Rtp(base, units[0].timestamp))) + InOrder(units[1..], WrappingAdd(base, PacketCount(units[0])))
  }

  lemma UnitOutput(u: Unit, first: Option<Rtp>)
    requires WellFormed(u)
    ensures Output(IDLE, UnitCalls(u, first)) == if ComesBack(u) then [Nal(u)] else []
    ensures StateAfter(IDLE, UnitCalls(u, first)) == IDLE
  {
    if u.Whole? {
      WholeOutput(u, first, Parse(u.payload, RtpAt(first, 0)));
      UnfragmentedPacketByItsBits(IDLE, u.payload, RtpAt(first, 0));
    } else {
      DeliveredExactlyWhenItFits(IDLE, u, first);
      OutputOfLast(UnitCalls(u, first), if Deliverable(u) then Some(Nal(u)) else None);
    }
  }

  lemma WholeOutput(u: Unit, first: Option<Rtp>, c: Call)
    requires u.Whole? && WellFormed(u) && c == Parse(u.payload, RtpAt(first, 0))
    ensures Output(IDLE, UnitCalls(u, first)) == if c.kind.SingleNal? then [u.payload] else []
    ensures StateAfter(IDLE, UnitCalls(u, first)) == IDLE
  {
    assert UnitCalls(u, first) == [c] == [c] + [];
    WholeStep(u.payload, c);
    OutputOne(IDLE, c);
    StateAfterCons(IDLE, c, []);
  }

  lemma WholeStep(payload: Bytes, c: Call)
    requires c == Parse(payload, c.rtp) && (payload == [] || UnitType(payload[0]) != FU_A_TYPE)
    ensures Step(IDLE, c) == (IDLE, if c.kind.SingleNal? then Some(payload) else None)
  {
  }

  lemma OutputOfLast(calls: seq<Call>, nal: Option<Bytes>)
    requires calls != [] && forall k :: 0 <= k < |calls| - 1 ==> Emitted(IDLE, calls, k) == None
    requires Emitted(IDLE, calls, |calls| - 1) == nal
    ensures Output(IDLE, calls) == if nal.Some? then [nal.value] else []
  {
    OutputAtEnd(IDLE, calls, |calls| - 1);
    assert calls[..|calls| - 1 + 1] == calls;
  }

  /** A stream of any length delivered in order comes out as exactly its deliverable NALs, in order. */
  lemma {:induction false} InOrderStreamIsDelivered(units: seq<Unit>, base: Sequence)
    requires forall i :: 0 <= i < |units| ==> WellFormed(units[i])
    ensures Output(IDLE, InOrder(units, base)) == Delivered(units)
  {
    if units == [] {
    } else {
      var u, rest := units[0], WrappingAdd(base, PacketCount(units[0]));
      var calls := UnitCalls(u, Some(Rtp(base, u.timestamp)));
      UnitOutput(u, Some(Rtp(base, u.timestamp)));
      InOrderStreamIsDelivered(units[1..], rest);
      OutputConcat(IDLE, calls, InOrder(units[1..], rest));
    }
  }

  lemma WrappingAddTwice(base: Sequence, a: nat, b: nat)
    ensures WrappingAdd(WrappingAdd(base, a), b) == WrappingAdd(base, a + b)
  {
  }

  /** In-order delivery is the network that picks every position of the stream once, in order. */
  lemma {:induction false} InOrderAt(units: seq<Unit>, base: Sequence, k: nat, p: Sent, rtp: Rtp)
    requires k < |Stream(units)| && p == Stream(units)[k] && rtp == Rtp(WrappingAdd(base, k), p.timestamp)
    ensures |InOrder(units, base)| == |Stream(units)|
    ensures InOrder(units, base)[k] == Parse(p.payload, Some(rtp))
  {
    var u, head, tail := units[0], UnitPackets(units[0]), Stream(units[1..]);
    var rest := WrappingAdd(base, |head|);
    InOrderLength(units[1..], rest);
    if k < |head| {
      UnitCallAt(u, base, k, p, rtp);
    } else {
      WrappingAddTwice(base, |head|, k - |head|);
      InOrderAt(units[1..], rest, k - |head|, p, rtp);
    }
  }

  lemma UnitCallAt(u: Unit, base: Sequence, k: nat, p: Sent, rtp: Rtp)
    requires k < PacketCount(u) && p == UnitPackets(u)[k] && rtp == Rtp(WrappingAdd(base, k), p.timestamp)
    ensures UnitCalls(u, Some(Rtp(base, u.timestamp)))[k] == Parse(p.payload, Some(rtp))
  {
  }

  lemma {:induction false} InOrderLength(units: seq<Unit>, base: Sequence)
    ensures |InOrder(units, base)| == |Stream(units)|
  {
    if units == [] {
    } else {
      InOrderLength(units[1..], WrappingAdd(base, PacketCount(units[0])));
    }
  }
}
