/**
 * The circuit breaker: which finished runs count against a lane, and the two stores that keep
 * the count (packages/engine/src/breaker.ts, packages/engine/src/breaker-pg.ts).
 */
module Breaker {
  import opened Prelude
  import opened States
  import opened Runs

  // ----- Which failures count -------------------------------------------------------------

  datatype Verdict = Success | Failure | Neutral

  /** Codes that say the lane is unhealthy, as opposed to one request being bad. */
  predicate IsLaneFailure(code: Code) {
    code in {SettlementFailed, SettlementTimeout, ReconcileMismatch, ReconcileStalled,
             PresettleInsufficientFunds, PresettleAnchorDrift, PresettleTxMismatch,
             PresettleDestinationUnsafe}
  }

  function OutcomeFor(state: State, code: Option<Code>): Verdict {
    if state == Completed then Success
    else if state !in {Failed, Held, Refunded} then Neutral
    else if code.None? then Neutral
    else if IsLaneFailure(code.value) then Failure else Neutral
  }

  // ----- The failure behind a resumed recovery -------------------------------------------------

  function LaneText(code: Code): (text: string)
    requires IsLaneFailure(code)
    ensures text != [] && ':' !in text
  {
    match code
    case SettlementFailed => "SETTLEMENT_FAILED"
    case SettlementTimeout => "SETTLEMENT_TIMEOUT"
    case ReconcileMismatch => "RECONCILE_MISMATCH"
    case ReconcileStalled => "RECONCILE_STALLED"
    case PresettleAnchorDrift => "PRESETTLE_ANCHOR_DRIFT"
    case PresettleTxMismatch => "PRESETTLE_TX_MISMATCH"
    case PresettleDestinationUnsafe => "PRESETTLE_DESTINATION_UNSAFE"
    case PresettleInsufficientFunds => "PRESETTLE_INSUFFICIENT_FUNDS"
  }

  function RequestText(code: Code): (text: string)
    ensures ':' !in text
  {
    match code
    case AmountInvalid => "AMOUNT_INVALID"
    case QuoteUnavailable => "QUOTE_UNAVAILABLE"
    case QuoteExpired => "QUOTE_EXPIRED"
    case KycRequired => "KYC_REQUIRED"
    case KycRejected => "KYC_REJECTED"
    case AnchorUnavailable => "ANCHOR_UNAVAILABLE"
    case _ => ""
  }

  function GateText(code: Code): (text: string)
    ensures ':' !in text
  {
    match code
    case PresettleQuoteWindow => "PRESETTLE_QUOTE_WINDOW"
    case PresettleAmountOutOfRange => "PRESETTLE_AMOUNT_OUT_OF_RANGE"
    case PresettleReceiverNotAccepted => "PRESETTLE_RECEIVER_NOT_ACCEPTED"
    case _ => ""
  }

  function CorridorText(code: Code): (text: string)
    ensures ':' !in text
  {
    match code
    case ManifestInvalid => "MANIFEST_INVALID"
    case ManifestChanged => "MANIFEST_CHANGED"
    case CapabilityMismatch => "CAPABILITY_MISMATCH"
    case CorridorUnproven => "CORRIDOR_UNPROVEN"
    case CorridorHalted => "CORRIDOR_HALTED"
    case _ => ""
  }

  function EngineText(code: Code): (text: string)
    ensures ':' !in text
  {
    match code
    case EngineMisconfigured => "ENGINE_MISCONFIGURED"
    case RefundUnsupported => "REFUND_UNSUPPORTED"
    case IdempotencyConflict => "IDEMPOTENCY_CONFLICT"
    case DryRunComplete => "DRY_RUN_COMPLETE"
    case RouteRefused => "ROUTE_REFUSED"
    case _ => ""
  }

  function CodeText(code: Code): (text: string)
    ensures ':' !in text
  {
    if IsLaneFailure(code) then LaneText(code)
    else RequestText(code) + GateText(code) + CorridorText(code) + EngineText(code)
  }

  const LANE_FAILURES: seq<Code> :=
    [SettlementFailed, SettlementTimeout, ReconcileMismatch, ReconcileStalled,
     PresettleInsufficientFunds, PresettleAnchorDrift, PresettleTxMismatch, PresettleDestinationUnsafe]

  function LaneCode(text: string, among: seq<Code>): Option<Code> {
    if among == [] then None
    else if CodeText(among[0]) == text then Some(among[0])
    else LaneCode(text, among[1..])
  }

  /** What a run stores as `lastError`. */
  function ErrorText(e: Error): string {
    CodeText(e.code) + ": " + e.message
  }

  /** `indexOf(": ")`: where the separator first occurs from `i` on. */
  function Separator(text: string, i: nat): Option<nat>
    requires i <= |text|
    decreases |text| - i
  {
    if i + 1 >= |text| then None
    else if text[i] == ':' && text[i + 1] == ' ' then Some(i)
    else Separator(text, i + 1)
  }

  function RecoveredCause(lastError: Option<string>, fallback: Error): Error {
    if lastError.None? then fallback
    else
      var text := lastError.value;
      var sep := Separator(text, 0);
      if sep.None? || sep.value == 0 || sep.value + 2 > |text| then fallback
      else
        var code := LaneCode(text[..sep.value], LANE_FAILURES);
        if code.None? then fallback
        else Error(code.value, text[sep.value + 2..], false, false)
  }

  lemma {:induction false} FirstSeparator(text: string, i: nat, k: nat)
    requires i <= k && k + 1 < |text| && text[k] == ':' && text[k + 1] == ' '
    requires forall n | i <= n < k :: text[n] != ':'
    ensures Separator(text, i) == Some(k)
    decreases k - i
  {
    if i < k { FirstSeparator(text, i + 1, k); }
  }

  /** A lane failure survives a crash: the stored text reads back as the same code and message,
      and a failure that is not one reads back as the fallback, never as a lane failure. */
  lemma CauseSurvivesARestart(e: Error, fallback: Error)
    ensures RecoveredCause(Some(ErrorText(e)), fallback)
         == if IsLaneFailure(e.code) then Error(e.code, e.message, false, false) else fallback
  {
    var text := ErrorText(e);
    var k := |CodeText(e.code)|;
    forall n | 0 <= n < k ensures text[n] != ':' {
      assert text[n] == CodeText(e.code)[n];
    }
    assert text[k] == ':' && text[k + 1] == ' ';
    FirstSeparator(text, 0, k);
    assert text[..k] == CodeText(e.code) && text[k + 2..] == e.message;
    LaneCodeIsExact(e.code);
  }

  lemma LaneCodeIsExact(code: Code)
    ensures LaneCode(CodeText(code), LANE_FAILURES) == if IsLaneFailure(code) then Some(code) else None
  {
    forall a | a in LANE_FAILURES && CodeText(a) == CodeText(code) ensures a == code {
      TextTellsTheCode(a, code);
    }
    LaneCodeAmong(code, LANE_FAILURES);
  }

  lemma TextTellsTheCode(a: Code, b: Code)
    requires IsLaneFailure(a)
    ensures CodeText(a) == CodeText(b) ==> a == b
  {
    LaneIsNoRequest(a, b);
    LaneIsNoGate(a, b);
    LaneIsNoCorridor(a, b);
    LaneIsNoEngine(a, b);
    if IsLaneFailure(b) {
      if LaneText(a) == LaneText(b) { LaneTextsDiffer(a, b); }
    } else {
      OtherText(b);
    }
  }

  lemma OtherText(b: Code)
    requires !IsLaneFailure(b)
    ensures CodeText(b) == RequestText(b) || CodeText(b) == GateText(b)
            || CodeText(b) == CorridorText(b) || CodeText(b) == EngineText(b)
  {
    var r, g, c, e := RequestText(b), GateText(b), CorridorText(b), EngineText(b);
    if r != "" { assert g == "" && c == "" && e == ""; }
    else if g != "" { assert c == "" && e == ""; }
    else if c != "" { assert e == ""; }
    assert "" + g == g && "" + c == c && "" + e == e && r + "" == r && g + "" == g && c + "" == c;
  }

  lemma LaneTextsDiffer(a: Code, b: Code)
    requires IsLaneFailure(a) && IsLaneFailure(b) && LaneText(a) == LaneText(b)
    ensures a == b
  {
    var t, u := LaneText(a), LaneText(b);
    assert |t| == |u| && t[0] == u[0] && t[10] == u[10];
  }

  lemma LaneIsNoRequest(a: Code, b: Code)
    requires IsLaneFailure(a)
    ensures LaneText(a) != RequestText(b)
  {
    var t, u := LaneText(a), RequestText(b);
    if |t| == |u| { assert t[0] != u[0]; }
  }

  lemma LaneIsNoGate(a: Code, b: Code)
    requires IsLaneFailure(a)
    ensures LaneText(a) != GateText(b)
  {
    var t, u := LaneText(a), GateText(b);
    if a == PresettleAnchorDrift && b == PresettleQuoteWindow {
      assert t[10] != u[10];
    } else {
      assert |t| != |u|;
    }
  }

  lemma LaneIsNoCorridor(a: Code, b: Code)
    requires IsLaneFailure(a)
    ensures LaneText(a) != CorridorText(b)
  {
    var t, u := LaneText(a), CorridorText(b);
    if |t| == |u| { assert t[0] != u[0]; }
  }

  lemma LaneIsNoEngine(a: Code, b: Code)
    requires IsLaneFailure(a)
    ensures LaneText(a) != EngineText(b)
  {
    var t, u := LaneText(a), EngineText(b);
    if |t| == |u| { assert t[0] != u[0] || t[2] != u[2]; }
  }

  lemma {:induction false} LaneCodeAmong(code: Code, among: seq<Code>)
    requires forall a | a in among && CodeText(a) == CodeText(code) :: a == code
    ensures LaneCode(CodeText(code), among) == if code in among then Some(code) else None
  {
    if among != [] { LaneCodeAmong(code, among[1..]); }
  }

  // ----- One lane's history --------------------------------------------------------------------

  /** A finished run folded into the lane, or a human reopening it. */
  datatype Op =
    | Done(at: int)
    | Broke(at: int, threshold: nat, error: Option<string>)
    | Reset(at: int, who: string, reason: string)

  /** A lane's row; closed with no failures when it has none. */
  datatype Record = Record(
    open: bool, failures: nat, trippedAt: Option<int>, lastError: Option<string>,
    resetBy: Option<string>, resetReason: Option<string>, resetAt: Option<int>, updatedAt: int)

  /** The in-memory store's next row. */
  function MemoryNext(row: Option<Record>, op: Op): Record {
    match op
    case Done(at) =>
      var current := if row.Some? then row.value else Record(false, 0, None, None, None, None, None, at);
      current.(open := false, failures := 0, updatedAt := at)
    case Broke(at, threshold, error) =>
      var current := if row.Some? then row.value else Record(false, 0, None, None, None, None, None, at);
      var failures := current.failures + 1;
      var trips := failures >= threshold;
      current.(open := trips || current.open,
               failures := failures,
               trippedAt := if trips then Coalesce(current.trippedAt, Some(at)) else current.trippedAt,
               lastError := Coalesce(error, current.lastError),
               updatedAt := at)
    case Reset(at, who, reason) => Record(false, 0, None, None, Some(who), Some(reason), Some(at), at)
  }

  /** The SQL upsert's next row: insert values on a new lane, `do update set` on an old one. */
  function SqlNext(row: Option<Record>, op: Op): Record {
    match op
    case Done(at) =>
      if row.None? then Record(false, 0, None, None, None, None, None, at)
      else row.value.(open := false, failures := 0, updatedAt := at)
    case Broke(at, threshold, error) =>
      if row.None? then
        Record(1 >= threshold, 1, if 1 >= threshold then Some(at) else None, error, None, None, None, at)
      else
        var crosses := row.value.failures + 1 >= threshold;
        row.value.(open := crosses || row.value.open,
                   failures := row.value.failures + 1,
                   trippedAt := if crosses && !row.value.open then Some(at) else row.value.trippedAt,
                   lastError := error,
                   updatedAt := at)
    case Reset(at, who, reason) =>
      if row.None? then Record(false, 0, None, None, Some(who), Some(reason), Some(at), at)
      else row.value.(open := false, failures := 0, trippedAt := None,
                      resetBy := Some(who), resetReason := Some(reason), resetAt := Some(at), updatedAt := at)
  }

  ghost function MemoryAfter(ops: seq<Op>): Option<Record> {
    if ops == [] then None else Some(MemoryNext(MemoryAfter(ops[..|ops| - 1]), ops[|ops| - 1]))
  }

  ghost function SqlAfter(ops: seq<Op>): Option<Record> {
    if ops == [] then None else Some(SqlNext(SqlAfter(ops[..|ops| - 1]), ops[|ops| - 1]))
  }

  // ----- What the history means ------------------------------------------------------------------

  /** Failures since the last success or reset. */
  ghost function Streak(ops: seq<Op>): nat {
    if ops == [] || !ops[|ops| - 1].Broke? then 0 else 1 + Streak(ops[..|ops| - 1])
  }

  /** One of the failures since the last success or reset met its own threshold. */
  ghost predicate Tripped(ops: seq<Op>) {
    exists n :: 0 < n <= Streak(ops) && Crossed(ops, n)
  }

  /** The streak's n-th failure met its threshold. */
  ghost predicate Crossed(ops: seq<Op>, n: nat)
    requires 0 < n <= Streak(ops)
  {
    StreakIsASuffix(ops);
    n >= ops[|ops| - Streak(ops) + n - 1].threshold
  }

  lemma {:induction false} StreakIsASuffix(ops: seq<Op>)
    ensures Streak(ops) <= |ops|
    ensures forall i | |ops| - Streak(ops) <= i < |ops| :: ops[i].Broke?
  {
    if ops != [] && ops[|ops| - 1].Broke? { StreakIsASuffix(ops[..|ops| - 1]); }
  }

  lemma TrippedStep(ops: seq<Op>)
    requires ops != [] && ops[|ops| - 1].Broke?
    ensures Tripped(ops) <==> Tripped(ops[..|ops| - 1]) || Streak(ops) >= ops[|ops| - 1].threshold
  {
    var before := ops[..|ops| - 1];
    StreakIsASuffix(ops);
    StreakIsASuffix(before);
    if Tripped(before) {
      var n :| 0 < n <= Streak(before) && Crossed(before, n);
      assert Crossed(ops, n);
    }
    if Streak(ops) >= ops[|ops| - 1].threshold { assert Crossed(ops, Streak(ops)); }
    if Tripped(ops) {
      var n :| 0 < n <= Streak(ops) && Crossed(ops, n);
      if n <= Streak(before) { assert Crossed(before, n); }
    }
  }

  /** Both stores agree with the history, and so with each other: the count is the streak, and
      the lane is open exactly when a failure of the streak met its threshold. */
  lemma {:induction false} StoresFollowTheHistory(ops: seq<Op>)
    requires ops != []
    ensures var m, q := MemoryAfter(ops).value, SqlAfter(ops).value;
            && m.failures == q.failures == Streak(ops)
            && m.open == q.open == Tripped(ops)
            && m.resetBy == q.resetBy && m.resetReason == q.resetReason && m.resetAt == q.resetAt
  {
    var before := ops[..|ops| - 1];
    if before != [] { StoresFollowTheHistory(before); }
    if ops[|ops| - 1].Broke? { TrippedStep(ops); }
  }

  // ----- What a row remembers of the history --------------------------------------------------------------

  /** The last failure since the reset that came with an error text. */
  ghost function LastReason(ops: seq<Op>): Option<string> {
    if ops == [] || ops[|ops| - 1].Reset? then None
    else if ops[|ops| - 1].Broke? && ops[|ops| - 1].error.Some? then ops[|ops| - 1].error
    else LastReason(ops[..|ops| - 1])
  }

  /** What the very last failure said, resets or not. */
  ghost function LastWords(ops: seq<Op>): Option<string> {
    if ops == [] then None
    else if ops[|ops| - 1].Broke? then ops[|ops| - 1].error
    else LastWords(ops[..|ops| - 1])
  }

  /** When a failure first met its threshold since the last reset. */
  ghost function FirstCrossing(ops: seq<Op>): Option<int> {
    if ops == [] || ops[|ops| - 1].Reset? then None
    else
      var op, before := ops[|ops| - 1], FirstCrossing(ops[..|ops| - 1]);
      if before.None? && op.Broke? && Streak(ops) >= op.threshold then Some(op.at) else before
  }

  /** When the lane last went from closed to open since the last reset. */
  ghost function LastOpening(ops: seq<Op>): Option<int> {
    if ops == [] || ops[|ops| - 1].Reset? then None
    else if Tripped(ops) && !Tripped(ops[..|ops| - 1]) then Some(ops[|ops| - 1].at)
    else LastOpening(ops[..|ops| - 1])
  }

  ghost function LastReset(ops: seq<Op>): Option<Op> {
    if ops == [] then None
    else if ops[|ops| - 1].Reset? then Some(ops[|ops| - 1])
    else LastReset(ops[..|ops| - 1])
  }

  /** What else the rows say, and where the two stores differ: in memory a row keeps the first crossing
      since a reset and the last error text given since then; in SQL it keeps the last opening since a
      reset and what the very last failure said. */
  lemma {:induction false} RowsRemember(ops: seq<Op>)
    requires ops != []
    ensures var m, q, last := MemoryAfter(ops).value, SqlAfter(ops).value, ops[|ops| - 1];
            && m.trippedAt == FirstCrossing(ops) && q.trippedAt == LastOpening(ops)
            && m.lastError == LastReason(ops) && q.lastError == LastWords(ops)
            && m.updatedAt == q.updatedAt == last.at
            && (q.resetBy, q.resetReason, q.resetAt) ==
               match LastReset(ops)
               case Some(Reset(at, who, reason)) => (Some(who), Some(reason), Some(at))
               case _ => (None, None, None)
  {
    var before := ops[..|ops| - 1];
    StoresFollowTheHistory(ops);
    if before != [] {
      RowsRemember(before);
      StoresFollowTheHistory(before);
    }
    if ops[|ops| - 1].Broke? { TrippedStep(ops); }
  }

  // ----- Trips ------------------------------------------------------------------------------------------

  predicate JustTripped(r: Record, at: int) {
    r.open && r.trippedAt == Some(at)
  }

  ghost predicate IsOpen(row: Option<Record>) {
    row.Some? && row.value.open
  }

  /** No two operations carry the same timestamp. */
  ghost predicate DistinctTimes(ops: seq<Op>) {
    forall i, j | 0 <= i < j < |ops| :: ops[i].at != ops[j].at
  }

  lemma {:induction false} SqlTripIsFromTheHistory(ops: seq<Op>)
    requires ops != [] && SqlAfter(ops).value.trippedAt.Some?
    ensures exists i :: 0 <= i < |ops| && ops[i].at == SqlAfter(ops).value.trippedAt.value
  {
    var n := |ops| - 1;
    var before := ops[..n];
    if SqlAfter(ops).value.trippedAt == Some(ops[n].at) {
    } else {
      SqlTripIsFromTheHistory(before);
      var i :| 0 <= i < |before| && before[i].at == SqlAfter(before).value.trippedAt.value;
      assert ops[i] == before[i];
    }
  }

  /** With distinct timestamps a failure reports a trip exactly when it opened the lane. */
  lemma SqlReportsEachTripOnce(ops: seq<Op>)
    requires ops != [] && ops[|ops| - 1].Broke? && DistinctTimes(ops)
    ensures JustTripped(SqlAfter(ops).value, ops[|ops| - 1].at)
            <==> IsOpen(SqlAfter(ops)) && !IsOpen(SqlAfter(ops[..|ops| - 1]))
  {
    var n := |ops| - 1;
    var before := ops[..n];
    if before != [] && SqlAfter(before).value.trippedAt.Some? {
      SqlTripIsFromTheHistory(before);
      var i :| 0 <= i < |before| && before[i].at == SqlAfter(before).value.trippedAt.value;
      assert ops[i].at != ops[n].at;
    }
  }

  /** How often the metered SQL store reports a trip over a history. */
  ghost function SqlReports(ops: seq<Op>): nat {
    if ops == [] then 0
    else
      var n := |ops| - 1;
      SqlReports(ops[..n]) + if ops[n].Broke? && JustTripped(SqlAfter(ops).value, ops[n].at) then 1 else 0
  }

  /** How often the lane goes from closed to open over a history. */
  ghost function Openings(ops: seq<Op>): nat {
    if ops == [] then 0
    else Openings(ops[..|ops| - 1]) + if Tripped(ops) && !Tripped(ops[..|ops| - 1]) then 1 else 0
  }

  lemma {:induction false} ReportsAreOpenings(ops: seq<Op>)
    requires DistinctTimes(ops)
    ensures SqlReports(ops) == Openings(ops)
  {
    if ops != [] {
      var n := |ops| - 1;
      var before := ops[..n];
      ReportsAreOpenings(before);
      StoresFollowTheHistory(ops);
      if before != [] { StoresFollowTheHistory(before); }
      if ops[n].Broke? { SqlReportsEachTripOnce(ops); }
    }
  }

  /** The in-memory store keeps the first trip time until a reset, so it reports the opening of a
      lane exactly when no earlier trip is on record (or one at the very same time). */
  lemma MemoryReportsFirstTripsOnly(row: Option<Record>, op: Op)
    requires op.Broke? && !IsOpen(row) && MemoryNext(row, op).open
    ensures JustTripped(MemoryNext(row, op), op.at)
            <==> row.None? || row.value.trippedAt.None? || row.value.trippedAt == Some(op.at)
  {
  }

  /** A lane that trips, recovers by a success and trips again: the second trip goes unreported. */
  lemma MemoryMissesASecondTrip()
    ensures var ops := [Broke(1, 1, None), Done(2), Broke(3, 1, None)];
            && DistinctTimes(ops)
            && IsOpen(MemoryAfter(ops)) && !IsOpen(MemoryAfter(ops[..2]))
            && !JustTripped(MemoryAfter(ops).value, 3) && JustTripped(SqlAfter(ops).value, 3)
  {
    var ops := [Broke(1, 1, None), Done(2), Broke(3, 1, None)];
    assert ops[..2] == [Broke(1, 1, None), Done(2)];
    assert ops[..2][..1] == [Broke(1, 1, None)];
    assert ops[..2][..1][..0] == [];
    assert MemoryAfter(ops[..2][..1]).value.trippedAt == Some(1);
    assert MemoryAfter(ops[..2]).value.trippedAt == Some(1) && SqlAfter(ops[..2]).value.failures == 0;
  }

  // ----- The stores ---------------------------------------------------------------------------------------

  /** The per-process store. */
  class InMemoryHealthStore {
    var rows: map<string, Record>

    constructor ()
      ensures rows == map[]
    {
      rows := map[];
    }

    function Row(id: string): Option<Record>
      reads this
    {
      if id in rows then Some(rows[id]) else None
    }

    method RecordOutcome(id: string, success: bool, at: int, threshold: nat, error: Option<string>)
      returns (next: Record)
      modifies this
      ensures next == MemoryNext(old(Row(id)), if success then Done(at) else Broke(at, threshold, error))
      ensures rows == old(rows)[id := next]
    {
      var current := Record(false, 0, None, None, None, None, None, at);
      if id in rows { current := rows[id]; }
      if success {
        next := current.(open := false, failures := 0, updatedAt := at);
      } else {
        var failures := current.failures + 1;
        var trips := failures >= threshold;
        next := current.(open := trips || current.open, failures := failures, updatedAt := at);
        if trips && current.trippedAt.None? { next := next.(trippedAt := Some(at)); }
        if error.Some? { next := next.(lastError := error); }
      }
      rows := rows[id := next];
    }

    method ResetLane(id: string, who: string, reason: string, at: int) returns (next: Record)
      modifies this
      ensures next == MemoryNext(old(Row(id)), Reset(at, who, reason)) && rows == old(rows)[id := next]
      ensures !next.open && next.failures == 0 && next.trippedAt.None?
    {
      next := Record(false, 0, None, None, Some(who), Some(reason), Some(at), at);
      rows := rows[id := next];
    }
  }
}
