/**
 * Nothing is paid unchecked: what has to have happened in the same pass before a submit, over
 * every history of one worker at a time; and what a dry run may touch.
 */
module Checked {
  import opened Prelude
  import opened States
  import opened Runs
  import opened Stores
  import opened Protocol
  import opened OneWorker

  // ----- The evidence before a submit ---------------------------------------------------------

  /** What was seen since the process started and since its last submit: the quote the gate last
      let through, the clock since, the request last looked for in vain. */
  datatype Seen = Seen(gate: Option<Quote>, clock: Option<int>, missing: Option<Request>)

  const NOTHING_SEEN := Seen(None, None, None)

  function Saw(seen: Seen, e: Event): Seen {
    match e
    case Boot(_, _) => NOTHING_SEEN
    case Submit(_, _) => NOTHING_SEEN
    case Gate(q, _, passed) => Seen(if passed then Some(q) else None, None, None)
    case Clock(at) => seen.(clock := Some(at))
    case Find(req, None) => seen.(missing := Some(req))
    case _ => seen
  }

  function SeenIn(history: seq<Event>): Seen {
    if history == [] then NOTHING_SEEN
    else Saw(SeenIn(history[..|history| - 1]), history[|history| - 1])
  }

  /** The clock was read before the deadline of a firm quote. */
  predicate InTime(run: Run, clock: Option<int>) {
    run.quoteFirm == Some(true) && run.quoteExpiresAt.Some? ==>
      clock.Some? && clock.value < run.quoteExpiresAt.value
  }

  /** The gate let through the quote this run recorded, and it can be settled as it is. */
  predicate GateLetThrough(p: Process, seen: Seen) {
    && seen.gate.Some? && !SettleQuoteProblem(seen.gate.value, p.c.settings)
    && p.run.settlementAmount == Some(seen.gate.value.amount)
    && p.run.quoteFirm == Some(seen.gate.value.firm) && p.run.quoteExpiresAt == Some(seen.gate.value.expiresAt)
  }

  /** What a process relies on is what was seen. */
  ghost predicate Backed(cfg: Config, p: Process, seen: Seen) {
    && (p.stage.Gated? ==> p.claimed && p.stage.at == seen.clock)
    && (p.stage.Gated? && p.stage.passed ==> GateLetThrough(p, seen))
    && (p.stage == Armed ==> p.claimed)
    && (p.stage == Armed || (p.claimed && p.stage.Clear?) ==>
          !p.dry && p.run.state == Settling && GateLetThrough(p, seen) && InTime(p.run, seen.clock))
    && (p.stage.Gated? || p.stage == Armed || (p.claimed && p.stage.Clear?) ==> Drawn(p))
    && (p.stage.Clear? ==> seen.missing == Some(p.stage.req))
    && (!p.claimed && p.stage.Clear? ==> p.stage.since == seen.clock)
    && (!p.claimed && p.stage.Clear? && p.run.state == Settling && p.entered != Settling ==>
          InTime(p.run, seen.clock) && Drawn(p))
  }

  /** A resumed process that has not looked yet has not read the clock either. */
  predicate Unlooked(p: Process) {
    !p.claimed && p.stage == Idle && (MayYetSettle(p.run.state) || p.run.state == Settling)
  }

  ghost predicate AllBacked(cfg: Config, s: Sys, seen: Seen) {
    && (s.lo.Live? ==> Backed(cfg, s.lo.p, seen) && (Unlooked(s.lo.p) ==> seen.clock.None?))
    && (s.lo.Booted? || s.lo.Unclaimed? ==> seen == NOTHING_SEEN)
  }

  lemma {:induction false} EvidenceIsKept(cfg: Config, history: seq<Event>)
    requires After(cfg, history).Some?
    ensures AllBacked(cfg, After(cfg, history).value, SeenIn(history))
  {
    if history != [] {
      var n := |history| - 1;
      EvidenceIsKept(cfg, history[..n]);
      EvidenceStep(cfg, After(cfg, history[..n]).value, SeenIn(history[..n]), history[n]);
    }
  }

  lemma EvidenceStep(cfg: Config, s: Sys, seen: Seen, e: Event)
    requires Next(cfg, s, e).Some? && AllBacked(cfg, s, seen)
    ensures AllBacked(cfg, Next(cfg, s, e).value, Saw(seen, e))
  {
    if s.lo.Live? && !e.Boot? && !e.Land? {
      if e.Write? {
        EvidenceWriteStep(cfg, s.lo.p, seen, e.run);
      } else {
        EvidenceProcessStep(cfg, s.lo.p, seen, e);
      }
    }
  }

  lemma EvidenceProcessStep(cfg: Config, p: Process, seen: Seen, e: Event)
    requires ProcessNext(cfg, p, e).Some? && !e.Write?
    requires Backed(cfg, p, seen) && (Unlooked(p) ==> seen.clock.None?)
    ensures var p' := ProcessNext(cfg, p, e).value;
            Backed(cfg, p', Saw(seen, e)) && (Unlooked(p') ==> Saw(seen, e).clock.None?)
  {
    if e.Gate? || e.Clock? || e.Find? || e.Submit? {
      EvidenceGathered(cfg, p, seen, e);
    } else {
      EvidenceUntouched(cfg, p, seen, e);
    }
  }

  lemma EvidenceGathered(cfg: Config, p: Process, seen: Seen, e: Event)
    requires ProcessNext(cfg, p, e).Some? && (e.Gate? || e.Clock? || e.Find? || e.Submit?)
    requires Backed(cfg, p, seen) && (Unlooked(p) ==> seen.clock.None?)
    ensures var p' := ProcessNext(cfg, p, e).value;
            Backed(cfg, p', Saw(seen, e)) && (Unlooked(p') ==> Saw(seen, e).clock.None?)
  {
  }

  lemma EvidenceUntouched(cfg: Config, p: Process, seen: Seen, e: Event)
    requires ProcessNext(cfg, p, e).Some? && !e.Write? && !(e.Gate? || e.Clock? || e.Find? || e.Submit?)
    requires Backed(cfg, p, seen) && (Unlooked(p) ==> seen.clock.None?)
    ensures var p' := ProcessNext(cfg, p, e).value;
            Backed(cfg, p', Saw(seen, e)) && (Unlooked(p') ==> Saw(seen, e).clock.None?)
  {
  }

  /** What a write leaves of the process's evidence. */
  lemma WriteKeepsTheQuote(cfg: Config, p: Process, run: Run)
    requires MayWrite(cfg, p, run) && run.state in {Funding, Funded, Verifying, Settling}
    ensures run.settlementAmount == p.run.settlementAmount && run.quoteFirm == p.run.quoteFirm
    ensures run.quoteExpiresAt == p.run.quoteExpiresAt
    ensures Given(p.run.sourceTransactionId) ==> Given(run.sourceTransactionId)
    ensures run.state == Settling && !p.claimed ==> Drawn(p)
    ensures run.state == Settling ==>
              if p.claimed then !p.dry && p.stage.Gated? && p.stage.passed && QuoteBinds(p.run, p.stage.at)
              else p.stage.Holding? || (p.stage.Clear? && QuoteBinds(p.run, p.stage.since))
  {
  }

  lemma EvidenceWriteStep(cfg: Config, p: Process, seen: Seen, run: Run)
    requires MayWrite(cfg, p, run)
    requires Backed(cfg, p, seen) && (Unlooked(p) ==> seen.clock.None?)
    ensures var p' := AfterWrite(p, run); Backed(cfg, p', seen) && (Unlooked(p') ==> seen.clock.None?)
  {
    if run.state in {Funding, Funded, Verifying, Settling} {
      WriteKeepsTheQuote(cfg, p, run);
      EvidenceOnward(cfg, p, seen, run);
    } else {
      EvidenceAside(cfg, p, seen, run);
    }
  }

  lemma EvidenceOnward(cfg: Config, p: Process, seen: Seen, run: Run)
    requires run.state in {Funding, Funded, Verifying, Settling}
    requires run.state == p.run.state == Funding || CanTransition(p.run.state, run.state)
    requires run.settlementAmount == p.run.settlementAmount && run.quoteFirm == p.run.quoteFirm
    requires run.quoteExpiresAt == p.run.quoteExpiresAt
    requires Given(p.run.sourceTransactionId) ==> Given(run.sourceTransactionId)
    requires run.state == Settling && !p.claimed ==> Drawn(p)
    requires run.state == Settling ==>
               if p.claimed then !p.dry && p.stage.Gated? && p.stage.passed && QuoteBinds(p.run, p.stage.at)
               else p.stage.Holding? || (p.stage.Clear? && QuoteBinds(p.run, p.stage.since))
    requires Backed(cfg, p, seen) && (Unlooked(p) ==> seen.clock.None?)
    ensures var p' := AfterWrite(p, run); Backed(cfg, p', seen) && (Unlooked(p') ==> seen.clock.None?)
  {
  }

  lemma EvidenceAside(cfg: Config, p: Process, seen: Seen, run: Run)
    requires MayWrite(cfg, p, run) && run.state !in {Funding, Funded, Verifying, Settling}
    ensures var p' := AfterWrite(p, run); Backed(cfg, p', seen) && (Unlooked(p') ==> seen.clock.None?)
  {
  }

  /** Whoever submits has `settling` on the row and, since the process started or last submitted:
      a gate (or its explicit skip) that let through the very quote on the row, where there is a
      gate a resumed process cannot pay past; a look that found no such payment, where the
      submitter can look; and a clock reading before the deadline of a firm quote. The sender's
      deposit is on the row, where the corridor draws one. */
  lemma PaidOnlyAfterChecks(cfg: Config, history: seq<Event>, s: Sys, req: Request, fate: Fate)
    requires LeadsTo(cfg, history, s) && Next(cfg, s, Submit(req, fate)).Some?
    ensures s.lo.Live? && s.lo.p.run.state == Settling && s.lo.p.run.settlementAmount == Some(req.amount)
    ensures if s.lo.p.claimed then !s.lo.p.dry && GateLetThrough(s.lo.p, SeenIn(history)) else !cfg.gate
    ensures cfg.canFind || !s.lo.p.claimed ==> SeenIn(history).missing == Some(req)
    ensures InTime(s.lo.p.run, SeenIn(history).clock) && Drawn(s.lo.p)
  {
    LeadingIsHappening(cfg, history, s);
    EvidenceIsKept(cfg, history);
  }

  // ----- Dry runs --------------------------------------------------------------------------------

  /** A fresh dry run never gets past its gate. */
  ghost predicate StopsShort(p: Process) {
    p.claimed && p.dry ==>
      && !HasSettlementRef(p.run) && (p.stage == Idle || p.stage.Gated? || p.stage.Reported?)
      && p.run.state in {Created, Quoted, Compliant, Opened, Verifying,
                         Recovering, Refunded, Held, Failed, RefundPending}
  }

  lemma {:induction false} DryRunsStopShort(cfg: Config, history: seq<Event>)
    requires After(cfg, history).Some?
    ensures var s := After(cfg, history).value; s.lo.Live? ==> StopsShort(s.lo.p)
  {
    if history != [] {
      var n := |history| - 1;
      DryRunsStopShort(cfg, history[..n]);
      InvHolds(cfg, history[..n]);
      StopsShortStep(cfg, After(cfg, history[..n]).value, history[n]);
    }
  }

  lemma StopsShortStep(cfg: Config, s: Sys, e: Event)
    requires Rows(cfg, s) && Next(cfg, s, e).Some? && (s.lo.Live? ==> StopsShort(s.lo.p))
    ensures var s' := Next(cfg, s, e).value; s'.lo.Live? ==> StopsShort(s'.lo.p)
  {
    if s.lo.Live? && !e.Boot? && !e.Land? {
      if e.Write? {
        StopsShortWrite(cfg, s.lo.p, e.run);
      } else {
        StopsShortOther(cfg, s.lo.p, e);
      }
    }
  }

  lemma StopsShortOther(cfg: Config, p: Process, e: Event)
    requires ProcessNext(cfg, p, e).Some? && !e.Write? && StopsShort(p)
    ensures StopsShort(ProcessNext(cfg, p, e).value)
    ensures p.claimed && p.dry ==> !e.Find? && !e.Submit? && !e.Confirm? && !e.Refund?
  {
  }

  lemma StopsShortWrite(cfg: Config, p: Process, run: Run)
    requires MayWrite(cfg, p, run) && StopsShort(p) && Shaped(p.run)
    ensures StopsShort(AfterWrite(p, run))
  {
    SettlementIsKept(cfg, p, run);
    if p.claimed && p.dry { DryWrites(cfg, p, run); }
  }

  lemma DryWrites(cfg: Config, p: Process, run: Run)
    requires MayWrite(cfg, p, run) && StopsShort(p) && p.claimed && p.dry
    ensures run.state in {Quoted, Compliant, Opened, Verifying, Recovering, Refunded, Held, Failed, RefundPending}
    ensures !HasSettlementRef(run)
  {
  }

  /** A fresh dry run never looks for a payment, submits, confirms, refunds or draws a deposit. */
  lemma FreshDryRunsMoveNothing(cfg: Config, history: seq<Event>, s: Sys, e: Event)
    requires LeadsTo(cfg, history, s) && s.lo.Live? && s.lo.p.claimed && s.lo.p.dry
    requires ProcessNext(cfg, s.lo.p, e).Some?
    ensures !e.Find? && !e.Submit? && !e.Confirm? && !e.Refund?
    ensures e.Write? ==> e.run.state !in {Funding, Funded, Settling, Settled}
  {
    LeadingIsHappening(cfg, history, s);
    DryRunsStopShort(cfg, history);
    if e.Write? { DryWrites(cfg, s.lo.p, e.run); } else { StopsShortOther(cfg, s.lo.p, e); }
  }

  ghost predicate OnlyDry(history: seq<Event>) {
    forall i | 0 <= i < |history| && history[i].Boot? :: history[i].dry
  }

  /** No money has moved, and nobody holds the means to move it. */
  ghost predicate Untouched(cfg: Config, s: Sys) {
    && s.sh.submits == 0 && s.sh.paid == [] && s.sh.inflight == [] && s.sh.refunds == []
    && (s.sh.row.Some? ==> !HasSettlementRef(s.sh.row.value))
    && (s.lo.Booted? || s.lo.Unclaimed? ==> s.lo.dry)
    && (s.lo.Live? ==> s.lo.p.dry && !s.lo.p.stage.Holding? && (s.lo.p.stage.Clear? ==> cfg.canFind))
  }

  /** Where every call for a key is a dry run, no money moves: provided there is a gate, or a
      submitter that cannot look (ResumedDryRunPays shows why this is needed). */
  lemma {:induction false} DryRunsPayNothing(cfg: Config, history: seq<Event>)
    requires After(cfg, history).Some? && OnlyDry(history) && (cfg.gate || !cfg.canFind)
    ensures Untouched(cfg, After(cfg, history).value)
  {
    if history != [] {
      var n := |history| - 1;
      DryRunsPayNothing(cfg, history[..n]);
      InvHolds(cfg, history[..n]);
      DryRunsStopShort(cfg, history[..n]);
      UntouchedStep(cfg, After(cfg, history[..n]).value, history[n]);
    }
  }

  lemma UntouchedStep(cfg: Config, s: Sys, e: Event)
    requires Rows(cfg, s) && Next(cfg, s, e).Some? && Untouched(cfg, s) && (cfg.gate || !cfg.canFind)
    requires s.lo.Live? ==> StopsShort(s.lo.p)
    requires e.Boot? ==> e.dry
    ensures Untouched(cfg, Next(cfg, s, e).value)
  {
    if s.lo.Live? && e.Write? {
      WritesAreKept(cfg, s.lo.p, e.run);
      NoSettlementAppears(cfg, s.lo.p, e.run);
    } else if s.lo.Live? && !e.Boot? && !e.Land? {
      OnlyWritesMoveTheRow(cfg, s, e);
      UntouchedProcess(cfg, s, e);
    } else if s.sh.row.Some? {
      DecodingIsExact(s.sh.row.value);
    }
  }

  lemma NoSettlementAppears(cfg: Config, p: Process, run: Run)
    requires MayWrite(cfg, p, run) && !HasSettlementRef(p.run) && !p.stage.Holding?
    ensures !HasSettlementRef(run)
  {
  }

  lemma UntouchedProcess(cfg: Config, s: Sys, e: Event)
    requires s.lo.Live? && Next(cfg, s, e).Some? && Untouched(cfg, s) && (cfg.gate || !cfg.canFind)
    requires StopsShort(s.lo.p) && !e.Boot? && !e.Land? && !e.Write?
    requires s.sh.row == Some(s.lo.p.run)
    ensures Untouched(cfg, Next(cfg, s, e).value)
  {
    if s.lo.p.claimed { StopsShortOther(cfg, s.lo.p, e); }
  }
}
