/**
 * The polling loops of packages/engine/src/verbs.ts: `reconcileUntil` and `watchRefund`. The
 * anchor's answers, the clock and the wake-ups are a tape of polls; the loops are proved to stop
 * exactly where a specification over the whole tape says, with the verdict it says.
 */
module Reconcile {
  import opened Prelude
  import opened Runs

  // ----- The tape --------------------------------------------------------------------------

  /** An anchor's answer about a transaction, or the failure to get one. */
  datatype Poll =
    | Answered(status: string, settled: bool, terminalFailure: bool, awaitingInput: bool, external: bool)
    | Unanswered(error: Error)

  /** What ended the wait after a poll: the timer, a wake-up during it, or one before it. */
  datatype Gap = Slept | Cut | Skipped

  /** One turn of the loop: the answer, the clock as read when it is noted, when the external
      budget is checked and when the deadline is checked, and the wait that followed. */
  datatype Turn = Turn(poll: Poll, noted: int, checked: int, late: int, gap: Gap)

  datatype Limits = Limits(pollMs: nat, deadline: int, threshold: nat, externalMs: int)

  datatype Verdict =
    | SettledAt(answer: Poll)
    | FailedAt(answer: Poll)
    | ExternalStall
    | PollStall
    | Unreachable(error: Error)
    | TimedOut(blocked: bool)

  // ----- The specification ---------------------------------------------------------------------

  predicate Ok(tape: seq<Turn>, i: nat)
    requires i < |tape|
  {
    tape[i].poll.Answered?
  }

  /** `j` is the last answered poll up to `i`. */
  ghost predicate LastAnswer(tape: seq<Turn>, i: nat, j: nat)
    requires i < |tape|
  {
    j <= i && Ok(tape, j) && forall k | j < k <= i :: !Ok(tape, k)
  }

  /** The external phase the anchor is in at `i` began with poll `j`: every answer since is
      external, and the answer before, if there was one, was not. */
  ghost predicate ExternalSince(tape: seq<Turn>, i: nat, j: nat)
    requires i < |tape|
  {
    && j <= i && Ok(tape, j)
    && (forall k | j <= k <= i && Ok(tape, k) :: tape[k].poll.external)
    && (forall k | 0 <= k < j && LastAnswer(tape, j - 1, k) :: !tape[k].poll.external)
  }

  ghost predicate InExternal(tape: seq<Turn>, i: nat)
    requires i < |tape|
  {
    exists j: nat :: LastAnswer(tape, i, j) && tape[j].poll.external
  }

  /** The statuses seen up to and including poll `i`; the loop starts out with "unknown". */
  ghost function Statuses(tape: seq<Turn>, n: nat): (s: seq<string>)
    requires n <= |tape|
    ensures s != []
  {
    if n == 0 then ["unknown"]
    else if Ok(tape, n - 1) then Statuses(tape, n - 1) + [tape[n - 1].poll.status]
    else Statuses(tape, n - 1)
  }

  /** The last `n + 1` statuses are all the same. */
  ghost predicate Repeated(s: seq<string>, n: nat) {
    n < |s| && forall k | |s| - 1 - n <= k < |s| :: s[k] == s[|s| - 1]
  }

  ghost predicate StalledExternally(tape: seq<Turn>, l: Limits, i: nat)
    requires i < |tape|
  {
    exists j: nat :: ExternalSince(tape, i, j) && tape[i].checked - tape[j].noted >= l.externalMs
  }

  /** An answered poll outside an external phase that repeats the previous `threshold` answers. */
  ghost predicate StalledPolling(tape: seq<Turn>, l: Limits, i: nat)
    requires i < |tape|
  {
    && Ok(tape, i) && !tape[i].poll.external && l.threshold > 0
    && Repeated(Statuses(tape, i + 1), l.threshold)
  }

  ghost predicate Blocked(tape: seq<Turn>, i: nat)
    requires i < |tape|
  {
    exists j: nat :: LastAnswer(tape, i, j) && tape[j].poll.awaitingInput
  }

  /** What poll `i` decides, if anything: settled before terminal failure before external stall
      before poll stall before the deadline. */
  ghost function Decision(tape: seq<Turn>, l: Limits, i: nat): Option<Verdict>
    requires i < |tape|
  {
    var poll := tape[i].poll;
    if poll.Answered? && poll.settled then Some(SettledAt(poll))
    else if poll.Answered? && poll.terminalFailure then Some(FailedAt(poll))
    else if StalledExternally(tape, l, i) then Some(ExternalStall)
    else if StalledPolling(tape, l, i) then Some(PollStall)
    else if tape[i].late >= l.deadline then
      Some(if poll.Unanswered? then Unreachable(poll.error) else TimedOut(Blocked(tape, i)))
    else None
  }

  ghost predicate Undecided(tape: seq<Turn>, l: Limits, n: nat)
    requires n <= |tape|
  {
    forall i | 0 <= i < n :: Decision(tape, l, i).None?
  }

  // ----- The loop ------------------------------------------------------------------------------------

  const LONGEST_MS: nat := 60_000

  function Cap(l: Limits): nat {
    if l.pollMs < LONGEST_MS then LONGEST_MS else l.pollMs
  }

  function Min(a: nat, b: nat): nat {
    if a < b then a else b
  }

  /** The status of poll `i` is news. */
  ghost predicate Changed(tape: seq<Turn>, i: nat)
    requires i < |tape|
  {
    Ok(tape, i) && var s := Statuses(tape, i); tape[i].poll.status != s[|s| - 1]
  }

  /** The wait after poll `i`: the base interval, except that while an external phase goes on
      with the same status every completed wait doubles the next, up to the cap. */
  ghost predicate PacedAt(tape: seq<Turn>, l: Limits, delays: seq<nat>, i: nat)
    requires i < |delays| <= |tape|
  {
    delays[i] ==
      if !InExternal(tape, i) || Changed(tape, i) || i == 0 || !InExternal(tape, i - 1) then l.pollMs
      else if tape[i - 1].gap == Skipped then delays[i - 1]
      else Min(2 * delays[i - 1], Cap(l))
  }

  /** The loop's variables: the last status, how often in a row it came, whether the anchor is in
      an external phase and since when, and whether it waits for someone's input. */
  datatype Memory = Memory(lastStatus: string, sameCount: nat, external: bool, since: Option<int>, awaiting: bool)

  function Note(m: Memory, turn: Turn): Memory {
    match turn.poll
    case Unanswered(_) => m
    case Answered(status, _, _, awaiting, external) =>
      Memory(status, if status == m.lastStatus then m.sameCount + 1 else 0, external,
             if !external then None else if m.since.Some? then m.since else Some(turn.noted),
             awaiting)
  }

  function Judge(m: Memory, turn: Turn, l: Limits): Option<Verdict> {
    if turn.poll.Answered? && turn.poll.settled then Some(SettledAt(turn.poll))
    else if turn.poll.Answered? && turn.poll.terminalFailure then Some(FailedAt(turn.poll))
    else if m.external && m.since.Some? && turn.checked - m.since.value >= l.externalMs then Some(ExternalStall)
    else if !m.external && l.threshold > 0 && m.sameCount >= l.threshold then Some(PollStall)
    else if turn.late >= l.deadline then
      Some(if turn.poll.Unanswered? then Unreachable(turn.poll.error) else TimedOut(m.awaiting))
    else None
  }

  /** What the loop remembers about the first `i` polls: `last` and `start` are where it got it. */
  ghost predicate Remembers(tape: seq<Turn>, i: nat, m: Memory, last: Option<nat>, start: nat)
    requires i <= |tape|
  {
    var s := Statuses(tape, i);
    && m.lastStatus == s[|s| - 1] && Repeated(s, m.sameCount) && !Repeated(s, m.sameCount + 1)
    && (last.None? ==> !m.external && !m.awaiting && forall k | 0 <= k < i :: !Ok(tape, k))
    && (last.Some? ==>
          && last.value < i && LastAnswer(tape, i - 1, last.value)
          && tape[last.value].poll.external == m.external && tape[last.value].poll.awaitingInput == m.awaiting)
    && (m.since.Some? <==> m.external)
    && (m.external ==> ExternalSince(tape, i - 1, start) && tape[start].noted == m.since.value)
  }

  lemma RepeatsGrow(s: seq<string>, n: nat, status: string)
    requires s != [] && Repeated(s, n) && !Repeated(s, n + 1)
    ensures var s' := s + [status];
            if status == s[|s| - 1] then Repeated(s', n + 1) && !Repeated(s', n + 2)
            else Repeated(s', 0) && !Repeated(s', 1)
  {
    var s' := s + [status];
    if status == s[|s| - 1] {
      assert forall k | |s'| - 2 - n <= k < |s'| - 1 :: s'[k] == s[k];
      if n + 1 < |s| {
        assert s[|s| - 2 - n] != s[|s| - 1];
        assert s'[|s'| - 3 - n] == s[|s| - 2 - n];
      }
    } else {
      assert s'[|s'| - 2] != s'[|s'| - 1];
    }
  }

  /** A longer repetition contains the shorter ones. */
  lemma ShorterRepeats(s: seq<string>, m: nat, n: nat)
    ensures Repeated(s, m) && n <= m ==> Repeated(s, n)
  {
  }

  lemma RepeatsExactly(s: seq<string>, n: nat, m: nat)
    requires Repeated(s, n) && !Repeated(s, n + 1)
    ensures Repeated(s, m) <==> m <= n
  {
    ShorterRepeats(s, m, n + 1);
  }

  lemma OneLastAnswer(tape: seq<Turn>, i: nat, j: nat, j': nat)
    requires i < |tape| && LastAnswer(tape, i, j) && LastAnswer(tape, i, j')
    ensures j == j'
  {
  }

  lemma {:induction false} AnAnswerBefore(tape: seq<Turn>, i: nat, j: nat) returns (k: nat)
    requires j <= i < |tape| && Ok(tape, j)
    ensures j <= k <= i && LastAnswer(tape, i, k)
    decreases i - j
  {
    if Ok(tape, i) { k := i; } else { k := AnAnswerBefore(tape, i - 1, j); }
  }

  lemma OneStart(tape: seq<Turn>, i: nat, j: nat, j': nat)
    requires i < |tape| && ExternalSince(tape, i, j) && ExternalSince(tape, i, j')
    ensures j == j'
  {
    if j < j' {
      var k := AnAnswerBefore(tape, j' - 1, j);
    } else if j' < j {
      var k := AnAnswerBefore(tape, j - 1, j');
    }
  }

  /** Noting one more poll keeps the memory true. */
  lemma NotesWell(tape: seq<Turn>, i: nat, m: Memory, last: Option<nat>, start: nat)
    requires i < |tape| && Remembers(tape, i, m, last, start)
    ensures Remembers(tape, i + 1, Note(m, tape[i]),
                      if Ok(tape, i) then Some(i) else last,
                      if Ok(tape, i) && m.since.None? then i else start)
  {
    if tape[i].poll.Answered? {
      RepeatsGrow(Statuses(tape, i), m.sameCount, tape[i].poll.status);
    }
  }

  /** What the loop remembers after poll `i` answers the questions of the specification. */
  lemma RemembersEnough(tape: seq<Turn>, l: Limits, i: nat, m: Memory, last: Option<nat>, start: nat)
    requires i < |tape| && Remembers(tape, i + 1, m, last, start)
    ensures InExternal(tape, i) <==> m.external
    ensures Blocked(tape, i) <==> m.awaiting
    ensures StalledExternally(tape, l, i) <==>
              m.external && m.since.Some? && tape[i].checked - m.since.value >= l.externalMs
    ensures Repeated(Statuses(tape, i + 1), l.threshold) <==> l.threshold <= m.sameCount
  {
    RepeatsExactly(Statuses(tape, i + 1), m.sameCount, l.threshold);
    if StalledExternally(tape, l, i) {
      var j: nat :| ExternalSince(tape, i, j) && tape[i].checked - tape[j].noted >= l.externalMs;
      var k := AnAnswerBefore(tape, i, j);
      OneLastAnswer(tape, i, k, last.value);
      OneStart(tape, i, j, start);
    }
  }

  /** Judging by the memory is deciding by the tape. */
  lemma JudgesWell(tape: seq<Turn>, l: Limits, i: nat, m: Memory, last: Option<nat>, start: nat)
    requires i < |tape| && Undecided(tape, l, i) && Remembers(tape, i + 1, m, last, start)
    ensures Judge(m, tape[i], l) == Decision(tape, l, i)
  {
    RemembersEnough(tape, l, i, m, last, start);
    if tape[i].poll.Unanswered? { FailedPollsDoNotStall(tape, l, i, m, last, start); }
  }

  /** A failed poll cannot be the one that completes a repetition: the answer that did was
      outside an external phase and stopped the loop then. */
  lemma FailedPollsDoNotStall(tape: seq<Turn>, l: Limits, i: nat, m: Memory, last: Option<nat>, start: nat)
    requires i < |tape| && Undecided(tape, l, i) && tape[i].poll.Unanswered?
    requires Remembers(tape, i + 1, m, last, start)
    ensures !m.external && l.threshold > 0 ==> m.sameCount < l.threshold
  {
    if last.None? {
      NoAnswersNoStatuses(tape, i + 1);
    } else {
      var j := last.value;
      SameStatuses(tape, j + 1, i + 1);
      RepeatsExactly(Statuses(tape, j + 1), m.sameCount, l.threshold);
      assert Decision(tape, l, j).None?;
    }
  }

  lemma {:induction false} NoAnswersNoStatuses(tape: seq<Turn>, n: nat)
    requires n <= |tape| && forall k | 0 <= k < n :: !Ok(tape, k)
    ensures Statuses(tape, n) == ["unknown"]
  {
    if n > 0 { NoAnswersNoStatuses(tape, n - 1); }
  }

  lemma {:induction false} SameStatuses(tape: seq<Turn>, m: nat, n: nat)
    requires m <= n <= |tape| && forall k | m <= k < n :: !Ok(tape, k)
    ensures Statuses(tape, m) == Statuses(tape, n)
    decreases n
  {
    if m < n { SameStatuses(tape, m, n - 1); }
  }

  /** The wait the loop has ready once `n` polls are done. */
  ghost function NextDelay(tape: seq<Turn>, l: Limits, delays: seq<nat>, n: nat): int
    requires n == |delays| <= |tape|
  {
    if n == 0 || !InExternal(tape, n - 1) then l.pollMs
    else if tape[n - 1].gap == Skipped then delays[n - 1]
    else Min(2 * delays[n - 1], Cap(l))
  }

  /** Every wait is the one the specification asks for, within its bounds. */
  ghost predicate Paced(tape: seq<Turn>, l: Limits, delays: seq<nat>) {
    |delays| <= |tape| && forall i | 0 <= i < |delays| :: PacedAt(tape, l, delays, i) && l.pollMs <= delays[i] <= Cap(l)
  }

  /** The waits so far and the one that is ready. */
  ghost predicate Pacing(tape: seq<Turn>, l: Limits, delays: seq<nat>, n: nat, nextPollMs: nat) {
    && n == |delays| <= |tape| && Paced(tape, l, delays)
    && l.pollMs <= nextPollMs <= Cap(l) && nextPollMs == NextDelay(tape, l, delays, n)
  }

  function Reset(m: Memory, turn: Turn, l: Limits, nextPollMs: nat): nat {
    if turn.poll.Answered? && (turn.poll.status != m.lastStatus || !turn.poll.external) then l.pollMs else nextPollMs
  }

  function DelayAfter(m: Memory, l: Limits, nextPollMs: nat): nat {
    if m.external then Min(nextPollMs, Cap(l)) else l.pollMs
  }

  function Double(m: Memory, turn: Turn, l: Limits, delay: nat, nextPollMs: nat): nat {
    if turn.gap == Skipped then nextPollMs
    else if m.external then Min(delay * 2, Cap(l)) else l.pollMs
  }

  /** One turn of the loop judges as the specification decides. */
  lemma TurnJudgesWell(tape: seq<Turn>, l: Limits, n: nat, m: Memory, last: Option<nat>, start: nat)
    returns (last': Option<nat>, start': nat)
    requires n < |tape| && Undecided(tape, l, n) && Remembers(tape, n, m, last, start)
    ensures var m' := Note(m, tape[n]);
            && Remembers(tape, n + 1, m', last', start')
            && Judge(m', tape[n], l) == Decision(tape, l, n)
            && (m'.external <==> InExternal(tape, n))
    ensures var s := Statuses(tape, n); m.lastStatus == s[|s| - 1]
  {
    var m' := Note(m, tape[n]);
    last' := if Ok(tape, n) then Some(n) else last;
    start' := if Ok(tape, n) && m.since.None? then n else start;
    NotesWell(tape, n, m, last, start);
    JudgesWell(tape, l, n, m', last', start');
    RemembersEnough(tape, l, n, m', last', start');
  }

  /** Earlier waits are not affected by later ones. */
  lemma PacedSoFar(tape: seq<Turn>, l: Limits, delays: seq<nat>, delay: nat)
    requires Paced(tape, l, delays) && |delays| < |tape|
    requires PacedAt(tape, l, delays + [delay], |delays|) && l.pollMs <= delay <= Cap(l)
    ensures Paced(tape, l, delays + [delay])
  {
    var d := delays + [delay];
    forall i | 0 <= i < |d| ensures PacedAt(tape, l, d, i) && l.pollMs <= d[i] <= Cap(l) {
      if i < |delays| {
        assert PacedAt(tape, l, delays, i);
        assert d[i] == delays[i] && (i > 0 ==> d[i - 1] == delays[i - 1]);
      }
    }
  }

  lemma TurnKeepsPace(tape: seq<Turn>, l: Limits, delays: seq<nat>, n: nat, m: Memory, nextPollMs: nat)
    requires Pacing(tape, l, delays, n, nextPollMs) && n < |tape|
    requires var s := Statuses(tape, n); m.lastStatus == s[|s| - 1]
    requires Note(m, tape[n]).external <==> InExternal(tape, n)
    ensures var m' := Note(m, tape[n]);
            var ready := Reset(m, tape[n], l, nextPollMs);
            var delay := DelayAfter(m', l, ready);
            Pacing(tape, l, delays + [delay], n + 1, Double(m', tape[n], l, delay, ready))
  {
    var delay := DelayAfter(Note(m, tape[n]), l, Reset(m, tape[n], l, nextPollMs));
    assert (delays + [delay])[n] == delay && (n > 0 ==> (delays + [delay])[n - 1] == delays[n - 1]);
    PacedSoFar(tape, l, delays, delay);
  }

  ghost predicate OutOfPatience(tape: seq<Turn>, l: Limits, i: nat)
    requires i < |tape|
  {
    exists j: nat :: ExternalSince(tape, i, j) && tape[j].noted + l.externalMs <= tape[i].checked
  }

  /** Poll `i` gives no reason to stop. */
  ghost predicate GoesOn(tape: seq<Turn>, l: Limits, i: nat)
    requires i < |tape|
  {
    && (tape[i].poll.Answered? ==> !tape[i].poll.settled && !tape[i].poll.terminalFailure)
    && tape[i].late < l.deadline && !OutOfPatience(tape, l, i)
    && (tape[i].poll.Answered? && !tape[i].poll.external && l.threshold > 0 ==>
          !Repeated(Statuses(tape, i + 1), l.threshold))
  }

  /** What a deciding poll was. A verdict on the transaction goes before a stall, a stall before the deadline. */
  ghost predicate RightVerdict(tape: seq<Turn>, l: Limits, i: nat, v: Verdict)
    requires i < |tape|
  {
    var poll, late := tape[i].poll, tape[i].late >= l.deadline;
    var final := poll.Answered? && (poll.settled || poll.terminalFailure);
    match v
    case SettledAt(answer) => poll.Answered? && poll.settled && answer == poll
    case FailedAt(answer) => poll.Answered? && !poll.settled && poll.terminalFailure && answer == poll
    case ExternalStall => !final && OutOfPatience(tape, l, i)
    case PollStall =>
      && !final && poll.Answered? && !poll.external && l.threshold > 0
      && Repeated(Statuses(tape, i + 1), l.threshold)
    case Unreachable(error) => late && poll == Unanswered(error) && !OutOfPatience(tape, l, i)
    case TimedOut(blocked) =>
      && late && poll.Answered? && !final && !OutOfPatience(tape, l, i)
      && !(!poll.external && l.threshold > 0 && Repeated(Statuses(tape, i + 1), l.threshold))
      && (blocked <==> exists j: nat :: LastAnswer(tape, i, j) && tape[j].poll.awaitingInput)
  }

  lemma VerdictIsRight(tape: seq<Turn>, l: Limits, i: nat)
    requires i < |tape| && Decision(tape, l, i).Some?
    ensures RightVerdict(tape, l, i, Decision(tape, l, i).value)
  {
  }

  lemma UndecidedGoesOn(tape: seq<Turn>, l: Limits, n: nat)
    requires n <= |tape| && Undecided(tape, l, n)
    ensures forall i | 0 <= i < n :: GoesOn(tape, l, i)
  {
    forall i | 0 <= i < n ensures GoesOn(tape, l, i) {
      assert Decision(tape, l, i).None?;
    }
  }

  /** Poll until a poll decides: `polls` turns were taken, and `delays` are the waits after them. */
  method ReconcileUntil(tape: seq<Turn>, l: Limits) returns (v: Option<Verdict>, polls: nat, delays: seq<nat>)
    ensures polls <= |tape| && (v.None? ==> polls == |tape|)
    ensures v.Some? ==> polls > 0 && Undecided(tape, l, polls - 1) && Decision(tape, l, polls - 1) == v
    ensures v.None? ==> Undecided(tape, l, polls)
    ensures |delays| == (if v.Some? then polls - 1 else polls) && Paced(tape, l, delays)
    ensures v.Some? ==> RightVerdict(tape, l, polls - 1, v.value)
    // No poll before it could have decided anything.
    ensures forall i | 0 <= i < (if v.Some? then polls - 1 else polls) :: GoesOn(tape, l, i)
  {
    var m := Memory("unknown", 0, false, None, false);
    var nextPollMs := l.pollMs;
    ghost var last: Option<nat>, start: nat := None, 0;
    polls, delays, v := 0, [], None;
    while polls < |tape|
      invariant polls <= |tape| && v.None? && Undecided(tape, l, polls) && Pacing(tape, l, delays, polls, nextPollMs)
      invariant Remembers(tape, polls, m, last, start)
    {
      var turn := tape[polls];
      last, start := TurnJudgesWell(tape, l, polls, m, last, start);
      TurnKeepsPace(tape, l, delays, polls, m, nextPollMs);
      nextPollMs := Reset(m, turn, l, nextPollMs);
      m := Note(m, turn);
      v := Judge(m, turn, l);
      polls := polls + 1;
      if v.Some? {
        UndecidedGoesOn(tape, l, polls - 1);
        VerdictIsRight(tape, l, polls - 1);
        return;
      }
      var delay := DelayAfter(m, l, nextPollMs);
      delays := delays + [delay];
      nextPollMs := Double(m, turn, l, delay, nextPollMs);
    }
    UndecidedGoesOn(tape, l, polls);
  }

  // ----- An anchor that says the same thing every time ------------------------------------------------------

  /** Every poll is answered with this status, which neither ends nor waits for anyone. */
  predicate Steady(tape: seq<Turn>, status: string) {
    forall k | 0 <= k < |tape| ::
      && Ok(tape, k) && tape[k].poll.status == status && !tape[k].poll.external
      && !tape[k].poll.settled && !tape[k].poll.terminalFailure
  }

  lemma {:induction false} SteadyStatuses(tape: seq<Turn>, status: string, n: nat)
    requires Steady(tape, status) && n <= |tape|
    ensures var s := Statuses(tape, n); |s| == n + 1 && s[0] == "unknown" && forall k | 0 < k <= n :: s[k] == status
  {
    if n > 0 { SteadyStatuses(tape, status, n - 1); }
  }

  /** Such an anchor stalls the loop exactly from the poll after `threshold` equal answers on, one more
      than the setting says; or, as the loop starts out with "unknown", from that many on if it says
      just that. */
  lemma SteadyAnswersStall(tape: seq<Turn>, l: Limits, status: string, i: nat)
    requires Steady(tape, status) && i < |tape|
    ensures Decision(tape, l, i) == Some(PollStall) <==>
              l.threshold > 0 && (i >= l.threshold || (i + 1 >= l.threshold && status == "unknown"))
  {
    SteadyStatuses(tape, status, i + 1);
    var s := Statuses(tape, i + 1);
    if l.threshold > 0 && l.threshold < |s| {
      assert s[|s| - 1] == status;
      assert Repeated(s, l.threshold) ==> s[|s| - 1 - l.threshold] == status;
    }
    assert !StalledExternally(tape, l, i);
  }

  // ----- How long the loop waits ---------------------------------------------------------------------------

  /** An interval doubled so many times. */
  function Doubled(ms: nat, times: nat): nat {
    if times == 0 then ms else 2 * Doubled(ms, times - 1)
  }

  /** Poll `i` says that the anchor waits for someone outside, with this status. */
  predicate SaysExternal(tape: seq<Turn>, i: nat, status: string) {
    i < |tape| && Ok(tape, i) && tape[i].poll.external && tape[i].poll.status == status
  }

  predicate SaysInternal(tape: seq<Turn>, i: nat) {
    i < |tape| && Ok(tape, i) && !tape[i].poll.external
  }

  lemma WhatWasJustSaid(tape: seq<Turn>, i: nat)
    requires i < |tape| && Ok(tape, i)
    ensures InExternal(tape, i) <==> tape[i].poll.external
    ensures var s := Statuses(tape, i + 1); s[|s| - 1] == tape[i].poll.status
  {
    assert LastAnswer(tape, i, i);
    forall j: nat | LastAnswer(tape, i, j) ensures j == i {
    }
  }

  /** An external phase begins with a wait of the base interval. */
  lemma PhaseStarts(tape: seq<Turn>, l: Limits, delays: seq<nat>, i: nat)
    requires Paced(tape, l, delays) && i < |delays| && (i > 0 ==> SaysInternal(tape, i - 1))
    ensures delays[i] == l.pollMs
  {
    assert PacedAt(tape, l, delays, i);
    if i > 0 { WhatWasJustSaid(tape, i - 1); }
  }

  lemma PhaseGoesOn(tape: seq<Turn>, l: Limits, delays: seq<nat>, i: nat, status: string)
    requires Paced(tape, l, delays) && 0 < i < |delays| && tape[i - 1].gap != Skipped
    requires SaysExternal(tape, i - 1, status) && SaysExternal(tape, i, status)
    ensures delays[i] == Min(2 * delays[i - 1], Cap(l))
  {
    assert PacedAt(tape, l, delays, i);
    WhatWasJustSaid(tape, i - 1);
    WhatWasJustSaid(tape, i);
  }

  /** While the anchor waits for someone outside and says nothing new, each wait is twice the one before, up
      to a minute or the base interval, whichever is more. */
  lemma {:induction false} ExternalWaitsDouble(
      tape: seq<Turn>, l: Limits, delays: seq<nat>, j: nat, k: nat, status: string)
    requires Paced(tape, l, delays) && j <= k < |delays|
    requires j > 0 ==> SaysInternal(tape, j - 1)
    requires forall i | j <= i <= k :: SaysExternal(tape, i, status)
    requires forall i | j <= i < k :: tape[i].gap != Skipped
    ensures delays[k] == Min(Doubled(l.pollMs, k - j), if l.pollMs < 60_000 then 60_000 else l.pollMs)
    decreases k
  {
    if j < k {
      ExternalWaitsDouble(tape, l, delays, j, k - 1, status);
      PhaseGoesOn(tape, l, delays, k, status);
    } else {
      PhaseStarts(tape, l, delays, j);
    }
  }

  /** Outside such a phase every wait is the base interval. */
  lemma OtherWaitsAreTheBase(tape: seq<Turn>, l: Limits, delays: seq<nat>, i: nat)
    requires Paced(tape, l, delays) && i < |delays| && SaysInternal(tape, i)
    ensures delays[i] == l.pollMs
  {
    assert PacedAt(tape, l, delays, i);
    WhatWasJustSaid(tape, i);
  }

  // ----- It ends -----------------------------------------------------------------------------------

  /** The clock does not run backwards, and a wait nobody cut short lasts its interval. */
  ghost predicate Timed(tape: seq<Turn>, l: Limits, start: int) {
    && (forall i | 0 <= i < |tape| :: tape[i].noted <= tape[i].checked <= tape[i].late)
    && (tape != [] ==> start <= tape[0].noted)
    && (forall i | 0 <= i < |tape| - 1 :: Waited(tape, l, i))
  }

  ghost predicate Waited(tape: seq<Turn>, l: Limits, i: nat)
    requires i + 1 < |tape|
  {
    tape[i].late + (if tape[i].gap == Slept then l.pollMs else 0) <= tape[i + 1].noted
  }

  function Wakes(tape: seq<Turn>, n: nat): nat
    requires n <= |tape|
  {
    if n == 0 then 0 else Wakes(tape, n - 1) + (if tape[n - 1].gap == Slept then 0 else 1)
  }

  /** Every wait that nobody cut short moves the clock on by the interval. */
  lemma {:induction false} WaitsAddUp(tape: seq<Turn>, l: Limits, start: int, n: nat)
    requires n < |tape| && Timed(tape, l, start)
    ensures Wakes(tape, n) <= n && start + (n - Wakes(tape, n)) * l.pollMs <= tape[n].noted
    decreases n
  {
    if n > 0 {
      WaitsAddUp(tape, l, start, n - 1);
      assert Waited(tape, l, n - 1);
      if tape[n - 1].gap == Slept {
        assert (n - Wakes(tape, n)) * l.pollMs == (n - 1 - Wakes(tape, n - 1)) * l.pollMs + l.pollMs;
      }
    }
  }

  /** Polls it takes to get past the deadline: one per started interval, and one more. */
  function Enough(l: Limits, start: int): nat
    requires l.pollMs > 0
  {
    if l.deadline <= start then 1 else (l.deadline - start + l.pollMs - 1) / l.pollMs + 1
  }

  lemma EnoughIsEnough(l: Limits, start: int)
    requires l.pollMs > 0
    ensures start + (Enough(l, start) - 1) * l.pollMs >= l.deadline
  {
    if l.deadline > start {
      var x := l.deadline - start + l.pollMs - 1;
      assert x == x / l.pollMs * l.pollMs + x % l.pollMs;
    }
  }

  /** The loop decides within ceil((deadline - start) / pollMs) + 1 polls, and one more for every
      wake-up, whatever the anchor answers. */
  lemma PollingEnds(tape: seq<Turn>, l: Limits, start: int)
    requires l.pollMs > 0 && Timed(tape, l, start)
    requires |tape| > 0 && |tape| >= Enough(l, start) + Wakes(tape, |tape| - 1)
    ensures !Undecided(tape, l, |tape|)
  {
    var n := |tape| - 1;
    WaitsAddUp(tape, l, start, n);
    EnoughIsEnough(l, start);
    assert (n - Wakes(tape, n)) * l.pollMs >= (Enough(l, start) - 1) * l.pollMs by {
      Grows(Enough(l, start) - 1, n - Wakes(tape, n), l.pollMs);
    }
    TooLateDecides(tape, l, n);
  }

  lemma TooLateDecides(tape: seq<Turn>, l: Limits, i: nat)
    requires i < |tape| && tape[i].late >= l.deadline
    ensures Decision(tape, l, i).Some?
  {
  }

  lemma Grows(a: int, b: int, m: nat)
    requires a <= b
    ensures a * m <= b * m
  {
  }

  // ----- The refund watch ----------------------------------------------------------------------------

  datatype Completeness = Full | Partial

  /** An answer of the receiving anchor while a refund is awaited. */
  datatype Watch =
    | Seen(status: string, terminalFailure: bool, refunds: Option<Completeness>, paymentId: Option<string>)
    | Unseen

  datatype WatchTurn = WatchTurn(watch: Watch, late: int)

  datatype Report = FullRefund(id: Option<string>) | NotFull | NotInTime

  /** A refund counts once the anchor reports it with a refunded or failed transaction. */
  predicate Reported(w: Watch) {
    w.Seen? && w.refunds.Some? && (w.status == "refunded" || w.terminalFailure)
  }

  /** Turn `i` is the first that reports a refund or comes too late for one. */
  ghost predicate FirstReport(tape: seq<WatchTurn>, deadline: int, i: nat) {
    && i < |tape| && (Reported(tape[i].watch) || tape[i].late >= deadline)
    && forall k | 0 <= k < i :: !Reported(tape[k].watch) && tape[k].late < deadline
  }

  /** A full refund is reported exactly when the first turn that reports one or is too late
      reports a complete one; a partial one is never taken for the whole. */
  method WatchRefund(tape: seq<WatchTurn>, deadline: int) returns (r: Option<Report>, polls: nat)
    ensures r.Some? ==> polls > 0 && FirstReport(tape, deadline, polls - 1)
    ensures r.None? ==> forall i :: !FirstReport(tape, deadline, i)
    ensures forall id :: r == Some(FullRefund(id)) <==>
              exists i: nat :: FirstReport(tape, deadline, i) && Reported(tape[i].watch)
                               && tape[i].watch.refunds == Some(Full) && tape[i].watch.paymentId == id
    ensures r == Some(NotInTime) <==>
              exists i: nat :: FirstReport(tape, deadline, i) && !Reported(tape[i].watch)
  {
    polls := 0;
    while polls < |tape|
      invariant polls <= |tape|
      invariant forall k | 0 <= k < polls :: !Reported(tape[k].watch) && tape[k].late < deadline
    {
      var turn := tape[polls];
      polls := polls + 1;
      if Reported(turn.watch) || turn.late >= deadline {
        assert FirstReport(tape, deadline, polls - 1);
        assert forall i: nat :: FirstReport(tape, deadline, i) ==> i == polls - 1;
        if !Reported(turn.watch) { return Some(NotInTime), polls; }
        if turn.watch.refunds == Some(Full) { return Some(FullRefund(turn.watch.paymentId)), polls; }
        return Some(NotFull), polls;
      }
    }
    r := None;
  }
}
