/** Aggregation of repeated diagnostics: what is reported plus what is pending accounts for every record. */
module RepeatLog {
  import opened Common

  const WINDOW_MS: int := 5000
  const U64_MAX: nat := 0xFFFF_FFFF_FFFF_FFFF

  /** A log line: how many records it stands for, and how many of them had been suppressed. */
  datatype Report = Report(count: nat, suppressed: nat)

  datatype State = State(lastReport: Option<int>, pending: nat)

  datatype Op = Record(now: int) | Flush | Reset

  function Apply(s: State, op: Op): (State, Option<Report>) {
    match op
    case Record(now) =>
      if s.lastReport.None? then (State(Some(now), s.pending), Some(Report(1, 0)))
      else
        var pending := if s.pending < U64_MAX then s.pending + 1 else U64_MAX;
        if now - s.lastReport.value < WINDOW_MS then (State(s.lastReport, pending), None)
        else (State(Some(now), 0), Some(Report(pending, pending)))
    case Flush => (s.(pending := 0), if s.pending == 0 then None else Some(Report(s.pending, s.pending)))
    case Reset => (State(None, 0), if s.pending == 0 then None else Some(Report(s.pending, s.pending)))
  }

  class Log {
    var lastReport: Option<int>
    var pending: nat

    ghost function View(): State reads this { State(lastReport, pending) }

    constructor ()
      ensures View() == State(None, 0)
    {
      lastReport, pending := None, 0;
    }

    method RecordAt(now: int) returns (report: Option<Report>)
      modifies this
      ensures (View(), report) == Apply(old(View()), Record(now))
    {
      if lastReport.None? {
        lastReport := Some(now);
        return Some(Report(1, 0));
      }
      pending := if pending < U64_MAX then pending + 1 else U64_MAX;
      var elapsed := if now < lastReport.value then 0 else now - lastReport.value;
      if elapsed < WINDOW_MS {
        return None;
      }
      lastReport := Some(now);
      var count := pending;
      pending := 0;
      return Some(Report(count, count));
    }

    method TakePending() returns (report: Option<Report>)
      modifies this
      ensures (View(), report) == Apply(old(View()), Flush)
    {
      var count := pending;
      pending := 0;
      return if count != 0 then Some(Report(count, count)) else None;
    }

    method ResetAll() returns (report: Option<Report>)
      modifies this
      ensures (View(), report) == Apply(old(View()), Reset)
    {
      var count := pending;
      lastReport, pending := None, 0;
      return if count != 0 then Some(Report(count, count)) else None;
    }
  }

  // ---------------------------------------------------------------- over every sequence of operations

  function After(s: State, ops: seq<Op>): State
    decreases ops
  {
    if ops == [] then s else After(Apply(s, ops[0]).0, ops[1..])
  }

  /** The records that the emitted reports stand for. */
  function Reported(s: State, ops: seq<Op>): nat
    decreases ops
  {
    if ops == [] then 0 else
      var (s', report) := Apply(s, ops[0]);
      (if report.Some? then report.value.count else 0) + Reported(s', ops[1..])
  }

  function Records(ops: seq<Op>): nat {
    if ops == [] then 0 else (if ops[0].Record? then 1 else 0) + Records(ops[1..])
  }

  /** The records that met a full counter. */
  function Lost(s: State, ops: seq<Op>): nat
    decreases ops
  {
    if ops == [] then 0 else
      (if ops[0].Record? && s.lastReport.Some? && s.pending >= U64_MAX then 1 else 0) + Lost(Apply(s, ops[0]).0, ops[1..])
  }

  /** Conservation, saturation included: only a record that meets a full counter goes uncounted. */
  lemma {:induction false} EveryRecordAccountedFor(s: State, ops: seq<Op>)
    requires s.pending <= U64_MAX
    ensures After(s, ops).pending <= U64_MAX
    ensures Reported(s, ops) + After(s, ops).pending + Lost(s, ops) == s.pending + Records(ops)
    decreases ops
  {
    if ops == [] {
    } else {
      EveryRecordAccountedFor(Apply(s, ops[0]).0, ops[1..]);
    }
  }

  lemma {:induction false} NothingLostWithoutSaturation(s: State, ops: seq<Op>)
    requires s.pending + Records(ops) <= U64_MAX
    ensures Lost(s, ops) == 0
    decreases ops
  {
    if ops == [] {
    } else {
      NothingLostWithoutSaturation(Apply(s, ops[0]).0, ops[1..]);
    }
  }

  /** Short of 2^64 records, the reports and the pending count add up to the number of records. */
  lemma ReportsPlusPendingEqualRecords(ops: seq<Op>)
    requires Records(ops) <= U64_MAX
    ensures Reported(State(None, 0), ops) + After(State(None, 0), ops).pending == Records(ops)
  {
    EveryRecordAccountedFor(State(None, 0), ops);
    NothingLostWithoutSaturation(State(None, 0), ops);
  }

  // ---------------------------------------------------------------- what is reported when

  /** The first record is reported at once, alone. */
  lemma FirstRecordIsReported(s: State, now: int)
    requires s.lastReport.None?
    ensures Apply(s, Record(now)) == (State(Some(now), s.pending), Some(Report(1, 0)))
  {
  }

  /** A later record is reported, with all that is pending, exactly when 5 s or more have passed since the last report. */
  lemma WindowDecides(s: State, now: int)
    requires s.lastReport.Some? && s.pending < U64_MAX
    ensures now - s.lastReport.value >= 5000 ==>
              Apply(s, Record(now)) == (State(Some(now), 0), Some(Report(s.pending + 1, s.pending + 1)))
    ensures now - s.lastReport.value < 5000 ==>
              Apply(s, Record(now)) == (State(s.lastReport, s.pending + 1), None)
  {
  }

  /** Between two reports of records without a reset in between lie at least 5 s, however many records and flushes come. */
  lemma {:induction false} ReportsAreSpaced(s: State, ops: seq<Op>, last: int, now: int)
    requires s.lastReport == Some(last) && forall i :: 0 <= i < |ops| ==> !ops[i].Reset?
    requires forall i :: 0 <= i < |ops| && ops[i].Record? ==> ops[i].now - last < 5000
    ensures After(s, ops).lastReport == Some(last)
    ensures Apply(After(s, ops), Record(now)).1.Some? <==> now - last >= 5000
    decreases ops
  {
    if ops == [] {
    } else {
      ReportsAreSpaced(Apply(s, ops[0]).0, ops[1..], last, now);
    }
  }

  /** A flush or a reset reports exactly what is pending, and nothing when nothing is. */
  lemma FlushReportsPending(s: State)
    ensures Apply(s, Flush) == (State(s.lastReport, 0), if s.pending > 0 then Some(Report(s.pending, s.pending)) else None)
    ensures Apply(s, Reset) == (State(None, 0), if s.pending > 0 then Some(Report(s.pending, s.pending)) else None)
  {
  }
}
