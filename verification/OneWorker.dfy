/**
 * One live worker at a time: every history of crashes and resumes in which a new process only
 * starts once the previous one has stopped. The invariant ties the stored row to the chain.
 */
module OneWorker {
  import opened Prelude
  import opened States
  import opened Runs
  import opened Stores
  import opened Protocol

  // ----- The invariant -----------------------------------------------------------------

  predicate Unsettled(r: Run) {
    r.settlementRef.None? && r.settlementKind.None? && r.stellarTxHash.None? && r.settlement.None?
  }

  /** What the state of a row says about its columns. */
  predicate Shaped(r: Run) {
    && SettlementAgrees(r)
    && (MayYetSettle(r.state) || r.state == Settling ==> Unsettled(r))
    && (r.state in {Settled, Reconciled, Completed} ==> r.settlementRef.Some?)
    && (!IsTerminal(r.state) ==> r.refundId.None?)
    && (r.sourceTransactionId.Some? ==> Given(r.sourceTransactionId))
    && (r.settlementRef.Some? && r.settlementRef.value.Stellar? ==>
          r.stellarTxHash == Some(r.settlementRef.value.txHash))
  }

  ghost predicate Pinned(cfg: Config, s: Sys) {
    && s.sh.row.Some? && s.sh.pinned.Some? && Parsed(cfg.schema, s.sh.pinned.value)
    && s.sh.row.value.manifestHash == Some(HashOf(s.sh.pinned.value))
    && Shaped(s.sh.row.value)
  }

  /** The row, and the live process's copy of it. */
  ghost predicate Rows(cfg: Config, s: Sys) {
    && (s.sh.row.None? ==> s.sh == NOTHING && !s.lo.Live?)
    && (s.sh.row.Some? ==> Pinned(cfg, s) && !s.lo.Unclaimed?)
    && (s.lo.Booted? ==> Parsed(cfg.schema, s.lo.c))
    && (s.lo.Unclaimed? ==> Parsed(cfg.schema, s.lo.c))
    && (s.lo.Live? ==> Parsed(cfg.schema, s.lo.p.c) && s.sh.row == Some(s.lo.p.run)
                       && (s.lo.p.claimed ==> s.lo.p.c == s.sh.pinned.value))
  }

  /** The one request this key ever settles. */
  function TheRequest(sh: Shared): Request
    requires sh.row.Some? && sh.pinned.Some?
  {
    RequestOf(sh.row.value, sh.pinned.value.settings)
  }

  /** Everything submitted, landed or hanging, is that request. */
  ghost predicate OneRequest(sh: Shared)
    requires sh.row.Some? && sh.pinned.Some?
  {
    && (forall i | 0 <= i < |sh.paid| :: sh.paid[i].req == TheRequest(sh))
    && (forall i | 0 <= i < |sh.inflight| :: sh.inflight[i] == TheRequest(sh))
    && |sh.paid| + |sh.inflight| <= sh.submits
    && (Unopened(sh.row.value.state) ==> sh.submits == 0)
    && (sh.submits > 0 ==> sh.row.value.settlementAmount.Some?)
  }

  /** A process that may still pay: not one that resumed a settlement in flight. */
  predicate CanPay(p: Process) {
    p.claimed || p.entered != Settling
  }

  /** At most one payment, landed or still able to land. */
  ghost predicate OnePayment(cfg: Config, s: Sys) {
    && (CanTell(cfg) ==> |s.sh.paid| + |s.sh.inflight| <= 1)
    && (s.sh.row.Some? ==>
          && (!cfg.lateRetries && s.sh.inflight != [] ==> !MayYetSettle(s.sh.row.value.state))
          && (Truthful(cfg) && s.sh.paid != [] ==> !MayYetSettle(s.sh.row.value.state))
          && (s.sh.accepted > 0 ==> !MayYetSettle(s.sh.row.value.state)))
    && s.sh.accepted <= 1
    && (s.lo.Live? ==> PaymentSeen(cfg, s.sh, s.lo.p))
  }

  /** What the live process knows about payments is true. */
  ghost predicate PaymentSeen(cfg: Config, sh: Shared, p: Process) {
    var unanswered := p.run.state == Settling && CanPay(p) && p.stage != Lost;
    && (!cfg.lateRetries && p.stage.Clear? && CanPay(p) ==> sh.paid == [] && sh.inflight == [])
    && (!cfg.lateRetries && unanswered && p.stage != Refused(false) ==> sh.inflight == [])
    && (Truthful(cfg) && unanswered && !p.stage.Holding? ==> sh.paid == [] && sh.inflight == [])
    && (unanswered && !p.stage.Holding? ==> sh.accepted == 0)
  }

  /** Submits and backoff are bounded by the manifest's retries, over all processes together. */
  ghost predicate Bounded(s: Sys) {
    s.sh.row.Some? && s.sh.pinned.Some? ==>
      && s.sh.retries <= s.sh.pinned.value.settings.maxRetries
      && s.sh.submits <= s.sh.retries + 1
      && s.sh.slept <= 5000 * s.sh.retries
      && (MayYetSettle(s.sh.row.value.state) ==> s.sh.submits <= s.sh.retries)
      && (s.lo.Live? ==>
            var p := s.lo.p;
            && (p.claimed ==> p.attempt == s.sh.retries)
            && (p.run.state == Settling && CanPay(p) && (p.stage in {Idle, Armed} || p.stage.Clear?) ==>
                  s.sh.submits <= s.sh.retries)
            && (p.claimed && p.run.state == Retrying && p.stage == Idle ==>
                  s.sh.retries > 0 && s.sh.slept <= 5000 * (s.sh.retries - 1)))
  }

  predicate Landed(sh: Shared, ref: Ref) {
    exists i :: 0 <= i < |sh.paid| && sh.paid[i].ref == ref
  }

  /** A refund is asked for at most once, of a payment that landed, for its amount. */
  ghost predicate OneRefund(s: Sys) {
    && |s.sh.refunds| <= 1
    && (s.sh.row.Some? ==>
          var r := s.sh.row.value;
          && (s.sh.refunds != [] ==>
                && r.state in {Recovering, RefundPending, Refunded, Held, Failed}
                && HasSettlementRef(r) && r.settlementAmount == Some(s.sh.refunds[0].amount)
                && s.sh.refunds[0].original == OriginalOf(r)
                && Landed(s.sh, s.sh.refunds[0].original))
          && (r.settlementRef.Some? && r.settlementRef.value.Stellar? ==> Landed(s.sh, r.settlementRef.value)))
    && (s.lo.Live? ==>
          var p := s.lo.p;
          && (s.sh.refunds != [] && p.run.state == Recovering ==> p.asked || p.entered == Recovering)
          && (p.asked ==> p.run.state in {Recovering, RefundPending, Refunded, Held, Failed})
          && (p.stage.Holding? && p.stage.ref.Stellar? ==> Landed(s.sh, p.stage.ref)))
  }

  /** The breaker hears of a key at most once, and only when its run is over. */
  ghost predicate OneOutcome(s: Sys) {
    && |s.sh.outcomes| <= 1
    && (s.sh.outcomes != [] ==>
          && s.sh.row.Some? && IsTerminal(s.sh.row.value.state)
          && s.sh.outcomes[0] == (s.sh.row.value.state == Completed)
          && (s.lo.Live? ==> s.lo.p.judged))
  }

  /** How a run that recorded its settlement can stand. */
  ghost predicate Justified(s: Sys) {
    && (s.sh.row.Some? ==>
          var r := s.sh.row.value;
          && (r.state in {Reconciled, Completed} ==> s.sh.confirmed)
          && (r.state == Refunded && HasSettlementRef(r) ==> r.refundId.Some? || s.sh.reported))
    && (s.lo.Live? ==>
          && (s.lo.p.stage.Confirmed? ==> s.sh.confirmed)
          && (s.lo.p.stage.Reported? ==> s.sh.reported))
  }

  ghost predicate Inv(cfg: Config, s: Sys) {
    && Rows(cfg, s)
    && (s.sh.row.Some? ==> OneRequest(s.sh))
    && OnePayment(cfg, s) && Bounded(s) && OneRefund(s) && OneOutcome(s) && Justified(s)
  }

  // ----- It holds of every history --------------------------------------------------------

  /** A resumed process under an unchanged hash settles the very same request. */
  lemma SameRequest(cfg: Config, s: Sys)
    requires Rows(cfg, s) && s.lo.Live? && !Repinned(s.lo.p)
    ensures RequestOf(s.lo.p.run, s.lo.p.c.settings) == TheRequest(s.sh)
  {
    SameHashSameSettings(cfg.schema, s.lo.p.c, s.sh.pinned.value);
  }

  predicate Keeps(before: Run, next: Run) {
    Follows(before, next) && Shaped(next) && next.manifestHash == before.manifestHash
  }

  lemma PreparingKeeps(cfg: Config, p: Process, next: Run)
    requires Shaped(p.run) && CanTransition(p.run.state, next.state) && Prepares(cfg, p, next)
    ensures Keeps(p.run, next)
  {
  }

  lemma AdvancingKeeps(cfg: Config, p: Process, next: Run)
    requires Shaped(p.run) && CanTransition(p.run.state, next.state) && Advances(cfg, p, next)
    ensures Keeps(p.run, next)
  {
  }

  lemma RecoveringKeeps(cfg: Config, p: Process, next: Run)
    requires Shaped(p.run) && CanTransition(p.run.state, next.state) && Recovers(cfg, p, next)
    ensures Keeps(p.run, next)
  {
  }

  /** The worker's writes are stored as written, by either store. */
  lemma WritesAreKept(cfg: Config, p: Process, next: Run)
    requires Shaped(p.run) && MayWrite(cfg, p, next)
    ensures Keeps(p.run, next) && Put(cfg.store, Some(p.run), next) == next
  {
    if !NotesDeposit(p, next) {
      if Prepares(cfg, p, next) { PreparingKeeps(cfg, p, next); }
      else if Advances(cfg, p, next) { AdvancingKeeps(cfg, p, next); }
      else { RecoveringKeeps(cfg, p, next); }
    }
    OneWriterPut(cfg.store, p.run, next);
  }

  /** Everything but a write or a new process leaves the row and the process's copy alone. */
  lemma OnlyWritesMoveTheRow(cfg: Config, s: Sys, e: Event)
    requires s.lo.Live? && Next(cfg, s, e).Some? && !e.Write? && !e.Boot?
    ensures var s' := Next(cfg, s, e).value;
            && s'.lo.Live? && s'.lo.p.run == s.lo.p.run && s'.lo.p.c == s.lo.p.c
            && s'.lo.p.claimed == s.lo.p.claimed && s'.lo.p.entered == s.lo.p.entered
            && s'.lo.p.attempt == s.lo.p.attempt
            && s'.sh.row == s.sh.row && s'.sh.pinned == s.sh.pinned && s'.sh.retries == s.sh.retries
  {
  }

  lemma RowsStep(cfg: Config, s: Sys, e: Event)
    requires Rows(cfg, s) && Next(cfg, s, e).Some?
    ensures Rows(cfg, Next(cfg, s, e).value)
  {
    if e.Boot? {
    } else if s.lo.Live? {
      if e.Write? { WritesAreKept(cfg, s.lo.p, e.run); } else { OnlyWritesMoveTheRow(cfg, s, e); }
    } else {
      RowsStepUnclaimed(cfg, s, e);
    }
  }

  lemma RowsStepUnclaimed(cfg: Config, s: Sys, e: Event)
    requires Rows(cfg, s) && Next(cfg, s, e).Some? && !s.lo.Live? && !e.Boot?
    ensures Rows(cfg, Next(cfg, s, e).value)
  {
    if s.sh.row.Some? { DecodingIsExact(s.sh.row.value); }
  }

  /** The request is fixed once the run is opened. */
  lemma RequestIsFixed(cfg: Config, p: Process, next: Run, st: Settings)
    requires MayWrite(cfg, p, next) && !Unopened(p.run.state)
    ensures RequestOf(next, st) == RequestOf(p.run, st) && next.settlementAmount == p.run.settlementAmount
    ensures !Unopened(next.state)
  {
  }

  /** A process that may find or submit does it for the one request. */
  lemma SubmitIsForTheRequest(cfg: Config, s: Sys, req: Request)
    requires Rows(cfg, s) && s.lo.Live? && (MaySubmit(cfg, s.lo.p, req) || MayFind(cfg, s.lo.p, req))
    ensures req == TheRequest(s.sh)
  {
    SameRequest(cfg, s);
  }

  /** Events that neither move money nor touch the row. */
  predicate Quiet(e: Event) {
    !e.Write? && !e.Claim? && !e.Submit? && !e.Land?
  }

  predicate SameMoney(a: Shared, b: Shared) {
    && a.row == b.row && a.pinned == b.pinned && a.paid == b.paid && a.inflight == b.inflight
    && a.submits == b.submits && a.accepted == b.accepted && a.retries == b.retries
  }

  /** What an event that moves no money may change, in one place for the steps below. */
  ghost predicate QuietChange(s: Sys, s': Sys, e: Event) {
    && SameMoney(s.sh, s'.sh)
    && s'.sh.slept == s.sh.slept + (if e.Backoff? then e.ms else 0)
    && s'.sh.refunds == s.sh.refunds + (if e.Refund? then [e.call] else [])
    && s'.sh.outcomes == s.sh.outcomes + (if e.Outcome? then [e.success] else [])
    && s'.sh.confirmed == (s.sh.confirmed || (e.Reconcile? && e.settled))
    && s'.sh.reported == (s.sh.reported || (e.WatchRefund? && e.full))
    && (s'.lo.Live? ==>
          if s.lo.Live? then QuietProcess(s.lo.p, s'.lo.p, e)
          else s.sh.row.Some? && exists c, dry, r :: s'.lo == Start(c, dry, false, r) && !IsTerminal(r.state))
    && (s.lo.Live? && !s'.lo.Live? ==> e.Boot?)
    && (e.Backoff? || e.Refund? || e.Outcome? ==> s.lo.Live? && s'.lo.Live?)
  }

  ghost predicate QuietProcess(p: Process, p': Process, e: Event) {
    && p'.run == p.run && p'.c == p.c && p'.claimed == p.claimed && p'.entered == p.entered
    && p'.attempt == p.attempt
    && p'.asked == (p.asked || e.Refund?) && p'.judged == (p.judged || e.Outcome?)
    && (p.stage.Holding? || p.stage.Refused? || p.stage == Lost ==> p'.stage == p.stage)
    && (p'.stage == Armed ==> p.stage == Armed)
    && (p'.stage.Clear? ==> p.stage.Clear? || (e.Find? && p.stage in {Armed, Idle}))
    && (p'.stage == Idle ==> p.stage == Idle && !e.Backoff?)
    && (p'.stage.Confirmed? ==> p.stage.Confirmed? || (e.Reconcile? && e.settled))
    && (p'.stage.Reported? ==> p.stage.Reported? || (e.WatchRefund? && e.full))
    && (p'.stage.Holding? ==>
          || p'.stage == p.stage || (e.Confirm? && p'.stage.ref.Adapter?)
          || (e.Find? && e.found == Some(p'.stage.ref)))
    && (e.Backoff? ==> p.claimed && p.run.state == Retrying && p.stage == Idle && e.ms <= 5000)
    && (e.Refund? ==> MayRefund(p, e.call))
    && (e.Outcome? ==> IsTerminal(p.run.state) && !p.judged && e.success == (p.run.state == Completed))
  }

  lemma QuietProcessChanges(cfg: Config, p: Process, e: Event)
    requires ProcessNext(cfg, p, e).Some? && Quiet(e)
    ensures QuietProcess(p, ProcessNext(cfg, p, e).value, e)
  {
  }

  lemma QuietSharedChanges(cfg: Config, sh: Shared, e: Event)
    requires SharedNext(cfg, sh, e).Some? && Quiet(e)
    ensures var sh' := SharedNext(cfg, sh, e).value;
      && SameMoney(sh, sh')
      && sh'.slept == sh.slept + (if e.Backoff? then e.ms else 0)
      && sh'.refunds == sh.refunds + (if e.Refund? then [e.call] else [])
      && sh'.outcomes == sh.outcomes + (if e.Outcome? then [e.success] else [])
      && sh'.confirmed == (sh.confirmed || (e.Reconcile? && e.settled))
      && sh'.reported == (sh.reported || (e.WatchRefund? && e.full))
  {
  }

  lemma QuietChanges(cfg: Config, s: Sys, e: Event)
    requires Rows(cfg, s) && Next(cfg, s, e).Some? && Quiet(e)
    ensures QuietChange(s, Next(cfg, s, e).value, e)
  {
    QuietSharedChanges(cfg, s.sh, e);
    if s.lo.Live? && !e.Boot? {
      QuietProcessChanges(cfg, s.lo.p, e);
    } else if e.Read? && e.row.Some? && !IsTerminal(e.row.value.state) {
      assert Next(cfg, s, e).value.lo == Start(s.lo.c, s.lo.dry, false, e.row.value);
    }
  }

  // ----- What one event changes -----------------------------------------------------------------

  predicate SameTerms(a: Run, b: Run) {
    && a.depositAddress == b.depositAddress && a.memo == b.memo && a.memoType == b.memoType
    && a.settlementAmount == b.settlementAmount
  }

  predicate FollowsTheTable(from: State, to: State) {
    from == to == Funding || CanTransition(from, to)
  }

  /** What every allowed write has in common, as far as money is concerned. */
  ghost predicate WriteFacts(p: Process, run: Run) {
    && FollowsTheTable(p.run.state, run.state) && Keeps(p.run, run)
    && (!Unopened(p.run.state) ==> SameTerms(p.run, run))
    && (run.state == Retrying ==> p.claimed && p.stage == Refused(true) && p.attempt < p.c.settings.maxRetries)
    && (run.state == Reconciled ==> p.stage.Confirmed?)
    && (run.state == Refunded && HasSettlementRef(run) ==> p.stage.Reported? || run.refundId.Some?)
    && (HasSettlementRef(p.run) ==> HasSettlementRef(run) && OriginalOf(run) == OriginalOf(p.run))
    && (run.settlementRef == p.run.settlementRef
        || (p.stage.Holding? && run.settlementRef == Some(p.stage.ref)))
    && (run.state == Failed ==> run.settlementRef == p.run.settlementRef && run.stellarTxHash == p.run.stellarTxHash)
  }

  /** Who may write at all: nobody who waits in vain, under a changed manifest only to fail the run,
      with a reference in hand only to record it, a refund only on evidence, and a failure of
      settled money only under `manual` or a changed manifest. */
  ghost predicate WriteRights(p: Process, run: Run) {
    && p.stage != Lost
    && (Stranger(p) ==> run.state == Failed)
    && (p.stage.Holding? ==> run.state in {Verifying, Settling, Settled})
    && (!p.claimed && p.entered == Settling && p.run.state == Settling && !Stranger(p) ==> p.stage.Holding?)
    && (run.state == Refunded ==> RefundEvidence(p))
    && (run.state == Failed && HasSettlementRef(p.run) ==> p.c.settings.rollback == Manual || Stranger(p))
  }

  lemma WritersHaveTheRight(cfg: Config, p: Process, run: Run)
    requires MayWrite(cfg, p, run)
    ensures WriteRights(p, run)
  {
  }

  lemma PreparingFacts(cfg: Config, p: Process, run: Run)
    requires Shaped(p.run) && CanTransition(p.run.state, run.state) && Prepares(cfg, p, run)
    ensures WriteFacts(p, run)
  {
    PreparingKeeps(cfg, p, run);
  }

  lemma AdvancingFacts(cfg: Config, p: Process, run: Run)
    requires Shaped(p.run) && CanTransition(p.run.state, run.state) && Advances(cfg, p, run)
    ensures WriteFacts(p, run)
  {
    AdvancingKeeps(cfg, p, run);
  }

  lemma RecoveringFacts(cfg: Config, p: Process, run: Run)
    requires Shaped(p.run) && CanTransition(p.run.state, run.state) && Recovers(cfg, p, run)
    ensures WriteFacts(p, run)
  {
    RecoveringKeeps(cfg, p, run);
  }

  lemma WritesAreFactual(cfg: Config, p: Process, run: Run)
    requires Shaped(p.run) && MayWrite(cfg, p, run)
    ensures WriteFacts(p, run)
  {
    if !NotesDeposit(p, run) {
      if Prepares(cfg, p, run) { PreparingFacts(cfg, p, run); }
      else if Advances(cfg, p, run) { AdvancingFacts(cfg, p, run); }
      else { RecoveringFacts(cfg, p, run); }
    }
  }

  ghost predicate Written(s: Sys, s': Sys, run: Run) {
    && s.lo.Live? && WriteFacts(s.lo.p, run) && s'.lo == Live(AfterWrite(s.lo.p, run))
    && s'.sh == s.sh.(row := Some(run),
                      retries := if run.state == Retrying then s.sh.retries + 1 else s.sh.retries)
  }

  ghost predicate Submitted(cfg: Config, s: Sys, s': Sys, req: Request, fate: Fate) {
    && s.lo.Live? && MaySubmit(cfg, s.lo.p, req) && MayEndAs(cfg, fate)
    && s'.sh == AfterSubmit(s.sh, req, fate) && s'.lo == Live(s.lo.p.(stage := StageAfterSubmit(req, fate)))
  }

  ghost predicate LandedOne(s: Sys, s': Sys, ref: Ref) {
    && s.sh.inflight != [] && s'.lo == s.lo
    && s'.sh == s.sh.(paid := s.sh.paid + [Payment(s.sh.inflight[0], ref)], inflight := s.sh.inflight[1..])
  }

  /** A claim that won found nothing there, and one that lost left nothing behind. */
  ghost predicate ClaimedOne(s: Sys, s': Sys) {
    && !s.lo.Live?
    && if s'.lo.Live? then
         && s.sh == NOTHING && s'.sh.row.Some? && s'.sh.pinned.Some?
         && s'.sh == NOTHING.(row := s'.sh.row, pinned := s'.sh.pinned)
         && s'.lo == Start(s'.sh.pinned.value, s'.lo.p.dry, true, s'.sh.row.value)
         && s'.sh.row.value.state == Created && Shaped(s'.sh.row.value)
       else s'.sh == s.sh
  }

  /** A truthful look for the one request. */
  ghost predicate Looked(cfg: Config, s: Sys, s': Sys, req: Request, found: Option<Ref>) {
    && s.lo.Live? && MayFind(cfg, s.lo.p, req) && found == FirstPaid(s.sh.paid, req) && s'.sh == s.sh
    && s'.lo == Live(s.lo.p.(stage := if found.Some? then Holding(req, found.value) else Clear(req, None)))
  }

  ghost predicate Changed(cfg: Config, s: Sys, s': Sys, e: Event) {
    if e.Write? then Written(s, s', e.run)
    else if e.Submit? then Submitted(cfg, s, s', e.req, e.fate)
    else if e.Land? then LandedOne(s, s', e.ref)
    else if e.Claim? then ClaimedOne(s, s')
    else if e.Find? then Looked(cfg, s, s', e.req, e.found)
    else QuietChange(s, s', e)
  }

  /** Looking, paying and claiming leave the books on refunds, outcomes and reports alone. */
  ghost predicate BooksRest(s: Sys, s': Sys) {
    && s'.sh.outcomes == s.sh.outcomes && s'.sh.confirmed == s.sh.confirmed && s'.sh.reported == s.sh.reported
    && s'.sh.refunds == s.sh.refunds && s'.sh.slept == s.sh.slept && s'.sh.retries == s.sh.retries
    && (if s.sh.row.Some? then s'.sh.row == s.sh.row && s'.sh.pinned == s.sh.pinned
        else s'.sh.row.Some? ==> s.sh == NOTHING && s'.sh.row.value.state == Created)
    && (s'.lo.Live? ==>
          if s.lo.Live? then
            && s'.lo.p.run == s.lo.p.run && s'.lo.p.judged == s.lo.p.judged
            && (s'.lo.p.stage == s.lo.p.stage || !(s'.lo.p.stage.Confirmed? || s'.lo.p.stage.Reported?))
          else s.sh.row.None? && s'.lo.p.stage == Idle)
  }

  lemma BooksRestWhile(cfg: Config, s: Sys, s': Sys, e: Event)
    requires Rows(cfg, s) && Changed(cfg, s, s', e) && (e.Submit? || e.Land? || e.Claim? || e.Find?)
    ensures BooksRest(s, s')
  {
    if e.Submit? { BooksRestAtSubmit(cfg, s, s', e.req, e.fate); }
    else if e.Claim? { BooksRestAtClaim(s, s'); }
  }

  lemma BooksRestAtSubmit(cfg: Config, s: Sys, s': Sys, req: Request, fate: Fate)
    requires Submitted(cfg, s, s', req, fate) && s.sh.row.Some?
    ensures BooksRest(s, s')
  {
  }

  lemma BooksRestAtClaim(s: Sys, s': Sys)
    requires ClaimedOne(s, s')
    ensures BooksRest(s, s')
  {
  }

  lemma Changes(cfg: Config, s: Sys, e: Event)
    requires Rows(cfg, s) && Next(cfg, s, e).Some?
    ensures Changed(cfg, s, Next(cfg, s, e).value, e)
  {
    if e.Write? { WriteChanges(cfg, s, e.run); }
    else if e.Claim? { ClaimChanges(cfg, s, e); }
    else if e.Submit? || e.Land? || e.Find? { MoneyChanges(cfg, s, e); }
    else { QuietChanges(cfg, s, e); }
  }

  lemma WriteChanges(cfg: Config, s: Sys, run: Run)
    requires Rows(cfg, s) && Next(cfg, s, Write(run)).Some?
    ensures Written(s, Next(cfg, s, Write(run)).value, run)
  {
    WritesAreFactual(cfg, s.lo.p, run);
    OneWriterPut(cfg.store, s.lo.p.run, run);
  }

  lemma MoneyChanges(cfg: Config, s: Sys, e: Event)
    requires Next(cfg, s, e).Some? && (e.Submit? || e.Land? || e.Find?)
    ensures Changed(cfg, s, Next(cfg, s, e).value, e)
  {
  }

  lemma ClaimChanges(cfg: Config, s: Sys, e: Event)
    requires Rows(cfg, s) && Next(cfg, s, e).Some? && e.Claim?
    ensures ClaimedOne(s, Next(cfg, s, e).value)
  {
  }

  // ----- One request ----------------------------------------------------------------------------------

  lemma RequestStep(cfg: Config, s: Sys, s': Sys, e: Event)
    requires Rows(cfg, s) && Rows(cfg, s') && Changed(cfg, s, s', e)
    requires s.sh.row.Some? ==> OneRequest(s.sh)
    ensures s'.sh.row.Some? ==> OneRequest(s'.sh)
  {
    if e.Write? {
      RequestWriteStep(s.sh, s'.sh, s.lo.p, e.run);
    } else if e.Submit? {
      SubmitIsForTheRequest(cfg, s, e.req);
      RequestSubmitStep(s.sh, e.req, e.fate);
    } else if e.Land? {
      RequestLandStep(s.sh, e.ref);
    } else if e.Claim? {
      RequestClaimStep(s, s');
    } else if !e.Find? {
      RequestQuietStep(s.sh, s'.sh);
    }
  }

  lemma RequestClaimStep(s: Sys, s': Sys)
    requires ClaimedOne(s, s') && (s.sh.row.Some? ==> s.sh.pinned.Some? && OneRequest(s.sh))
    ensures s'.sh.row.Some? ==> s'.sh.pinned.Some? && OneRequest(s'.sh)
  {
  }

  lemma RequestSubmitStep(sh: Shared, req: Request, fate: Fate)
    requires sh.row.Some? && sh.pinned.Some? && OneRequest(sh) && req == TheRequest(sh)
    requires sh.row.value.state == Settling && sh.row.value.settlementAmount.Some?
    ensures OneRequest(AfterSubmit(sh, req, fate))
  {
  }

  lemma RequestLandStep(sh: Shared, ref: Ref)
    requires sh.row.Some? && sh.pinned.Some? && OneRequest(sh) && sh.inflight != []
    ensures OneRequest(sh.(paid := sh.paid + [Payment(sh.inflight[0], ref)], inflight := sh.inflight[1..]))
  {
  }

  lemma RequestWriteStep(sh: Shared, sh': Shared, p: Process, run: Run)
    requires sh.row == Some(p.run) && sh.pinned.Some? && OneRequest(sh)
    requires sh'.row == Some(run) && sh'.pinned == sh.pinned && sh'.paid == sh.paid && sh'.inflight == sh.inflight
    requires sh'.submits == sh.submits && FollowsTheTable(p.run.state, run.state)
    requires !Unopened(p.run.state) ==> SameTerms(p.run, run)
    ensures OneRequest(sh')
  {
  }

  lemma RequestQuietStep(sh: Shared, sh': Shared)
    requires SameMoney(sh, sh') && (sh.row.Some? ==> sh.pinned.Some? && OneRequest(sh))
    ensures sh'.row.Some? ==> OneRequest(sh')
  {
  }

  // ----- At most one payment ------------------------------------------------------------------

  lemma PaymentStep(cfg: Config, s: Sys, s': Sys, e: Event)
    requires Rows(cfg, s) && Rows(cfg, s') && Changed(cfg, s, s', e)
    requires OnePayment(cfg, s) && (s.sh.row.Some? ==> OneRequest(s.sh))
    ensures OnePayment(cfg, s')
  {
    if e.Write? {
      PaymentWriteStep(cfg, s, s', e.run);
    } else if e.Submit? {
      PaymentSubmitStep(cfg, s, s', e.req, e.fate);
    } else if e.Land? {
      PaymentLandStep(cfg, s, s', e.ref);
    } else if e.Claim? {
      PaymentClaimStep(cfg, s, s');
    } else if e.Find? {
      SubmitIsForTheRequest(cfg, s, e.req);
      PaymentFindStep(cfg, s, s', e.req, e.found);
    } else {
      PaymentQuietStep(cfg, s, s', e);
    }
  }

  lemma PaymentWriteStep(cfg: Config, s: Sys, s': Sys, run: Run)
    requires OnePayment(cfg, s) && Written(s, s', run) && s.sh.row == Some(s.lo.p.run)
    ensures OnePayment(cfg, s')
  {
  }

  lemma PaymentSubmitStep(cfg: Config, s: Sys, s': Sys, req: Request, fate: Fate)
    requires OnePayment(cfg, s) && Submitted(cfg, s, s', req, fate) && s.sh.row == Some(s.lo.p.run)
    ensures OnePayment(cfg, s')
  {
  }

  lemma PaymentLandStep(cfg: Config, s: Sys, s': Sys, ref: Ref)
    requires OnePayment(cfg, s) && LandedOne(s, s', ref)
    requires s.lo.Live? ==> s.sh.row == Some(s.lo.p.run)
    ensures OnePayment(cfg, s')
  {
  }

  lemma PaymentClaimStep(cfg: Config, s: Sys, s': Sys)
    requires OnePayment(cfg, s) && ClaimedOne(s, s')
    ensures OnePayment(cfg, s')
  {
  }

  /** A look that finds nothing is proof that nothing landed: every landed payment is for
      the request looked for. */
  lemma PaymentFindStep(cfg: Config, s: Sys, s': Sys, req: Request, found: Option<Ref>)
    requires OnePayment(cfg, s) && Looked(cfg, s, s', req, found) && s.sh.row == Some(s.lo.p.run)
    requires s.sh.pinned.Some? && OneRequest(s.sh) && req == TheRequest(s.sh)
    ensures OnePayment(cfg, s')
  {
    assert forall i | 0 <= i < |s.sh.paid| :: s.sh.paid[i] in s.sh.paid;
  }

  lemma PaymentQuietStep(cfg: Config, s: Sys, s': Sys, e: Event)
    requires OnePayment(cfg, s) && QuietChange(s, s', e) && !e.Find?
    requires s'.lo.Live? ==> s'.sh.row == Some(s'.lo.p.run)
    ensures OnePayment(cfg, s')
  {
  }

  // ----- Bounded retries --------------------------------------------------------------------------

  lemma BoundedStep(cfg: Config, s: Sys, s': Sys, e: Event)
    requires Rows(cfg, s) && Rows(cfg, s') && Changed(cfg, s, s', e)
    requires Bounded(s)
    ensures Bounded(s')
  {
    if e.Write? { BoundedWriteStep(s, s', e.run); }
    else if e.Submit? { BoundedSubmitStep(cfg, s, s', e.req, e.fate); }
    else if e.Land? { BoundedLandStep(s, s', e.ref); }
    else if e.Claim? { BoundedClaimStep(s, s'); }
    else if e.Find? { BoundedFindStep(cfg, s, s', e.req, e.found); }
    else { BoundedQuietStep(cfg, s, s', e); }
  }

  lemma BoundedWriteStep(s: Sys, s': Sys, run: Run)
    requires Bounded(s) && Written(s, s', run) && s.sh.row == Some(s.lo.p.run) && s.sh.pinned.Some?
    requires s.lo.p.claimed ==> s.lo.p.c == s.sh.pinned.value
    ensures Bounded(s')
  {
  }

  lemma BoundedSubmitStep(cfg: Config, s: Sys, s': Sys, req: Request, fate: Fate)
    requires Bounded(s) && Submitted(cfg, s, s', req, fate) && s.sh.row == Some(s.lo.p.run)
    ensures Bounded(s')
  {
  }

  lemma BoundedLandStep(s: Sys, s': Sys, ref: Ref)
    requires Bounded(s) && LandedOne(s, s', ref)
    ensures Bounded(s')
  {
  }

  lemma BoundedClaimStep(s: Sys, s': Sys)
    requires Bounded(s) && ClaimedOne(s, s')
    ensures Bounded(s')
  {
  }

  lemma BoundedFindStep(cfg: Config, s: Sys, s': Sys, req: Request, found: Option<Ref>)
    requires Bounded(s) && Looked(cfg, s, s', req, found)
    ensures Bounded(s')
  {
  }

  lemma BoundedQuietStep(cfg: Config, s: Sys, s': Sys, e: Event)
    requires Bounded(s) && Rows(cfg, s) && Rows(cfg, s') && QuietChange(s, s', e)
    ensures Bounded(s')
  {
  }

  // ----- At most one refund -------------------------------------------------------------------------

  lemma RefundStep(cfg: Config, s: Sys, s': Sys, e: Event)
    requires Rows(cfg, s) && Rows(cfg, s') && Changed(cfg, s, s', e)
    requires OneRefund(s)
    ensures OneRefund(s')
  {
    if e.Write? { RefundWriteStep(s, s', e.run); }
    else if e.Submit? { RefundSubmitStep(cfg, s, s', e.req, e.fate); }
    else if e.Land? { RefundLandStep(s, s', e.ref); }
    else if e.Claim? { RefundClaimStep(s, s'); }
    else if e.Find? { RefundFindStep(cfg, s, s', e.req, e.found); }
    else { RefundQuietStep(cfg, s, s', e); }
  }

  lemma LandedStays(a: Shared, b: Shared)
    requires a.paid <= b.paid
    ensures forall ref | Landed(a, ref) :: Landed(b, ref)
  {
    forall ref | Landed(a, ref) ensures Landed(b, ref) {
      var i :| 0 <= i < |a.paid| && a.paid[i].ref == ref;
      assert b.paid[i] == a.paid[i];
    }
  }

  lemma RefundWriteStep(s: Sys, s': Sys, run: Run)
    requires OneRefund(s) && Written(s, s', run) && s.sh.row == Some(s.lo.p.run)
    ensures OneRefund(s')
  {
    LandedStays(s.sh, s'.sh);
  }

  lemma RefundSubmitStep(cfg: Config, s: Sys, s': Sys, req: Request, fate: Fate)
    requires OneRefund(s) && Submitted(cfg, s, s', req, fate)
    ensures OneRefund(s')
  {
    LandedStays(s.sh, s'.sh);
    if fate.Accepted? { assert s'.sh.paid[|s.sh.paid|].ref == fate.ref; }
  }

  lemma RefundLandStep(s: Sys, s': Sys, ref: Ref)
    requires OneRefund(s) && LandedOne(s, s', ref)
    ensures OneRefund(s')
  {
    LandedStays(s.sh, s'.sh);
  }

  lemma RefundClaimStep(s: Sys, s': Sys)
    requires OneRefund(s) && ClaimedOne(s, s')
    ensures OneRefund(s')
  {
    LandedStays(s.sh, s'.sh);
  }

  lemma RefundFindStep(cfg: Config, s: Sys, s': Sys, req: Request, found: Option<Ref>)
    requires OneRefund(s) && Looked(cfg, s, s', req, found) && s.sh.row.Some?
    ensures OneRefund(s')
  {
    if found.Some? {
      var p :| p in s.sh.paid && p.ref == found.value;
    }
  }

  lemma RefundQuietStep(cfg: Config, s: Sys, s': Sys, e: Event)
    requires OneRefund(s) && Rows(cfg, s) && Rows(cfg, s') && QuietChange(s, s', e) && !e.Find?
    ensures OneRefund(s')
  {
    LandedStays(s.sh, s'.sh);
  }

  // ----- One outcome, and every end justified -----------------------------------------------------------

  lemma OutcomeStep(cfg: Config, s: Sys, s': Sys, e: Event)
    requires Rows(cfg, s) && Rows(cfg, s') && Changed(cfg, s, s', e)
    requires OneOutcome(s)
    ensures OneOutcome(s')
  {
    if e.Write? { OutcomeWriteStep(s, s', e.run); }
    else if e.Submit? || e.Land? || e.Claim? || e.Find? { OutcomeRestStep(cfg, s, s', e); }
    else { OutcomeQuietStep(cfg, s, s', e); }
  }

  lemma OutcomeRestStep(cfg: Config, s: Sys, s': Sys, e: Event)
    requires OneOutcome(s) && Rows(cfg, s) && Changed(cfg, s, s', e)
    requires e.Submit? || e.Land? || e.Claim? || e.Find?
    ensures OneOutcome(s')
  {
    BooksRestWhile(cfg, s, s', e);
    OutcomeRests(s, s');
  }

  lemma OutcomeRests(s: Sys, s': Sys)
    requires OneOutcome(s) && BooksRest(s, s')
    ensures OneOutcome(s')
  {
  }

  lemma OutcomeWriteStep(s: Sys, s': Sys, run: Run)
    requires OneOutcome(s) && Written(s, s', run) && s.sh.row == Some(s.lo.p.run)
    ensures OneOutcome(s')
  {
  }

  lemma OutcomeQuietStep(cfg: Config, s: Sys, s': Sys, e: Event)
    requires OneOutcome(s) && Rows(cfg, s) && Rows(cfg, s') && QuietChange(s, s', e)
    ensures OneOutcome(s')
  {
  }

  lemma JustifiedStep(cfg: Config, s: Sys, s': Sys, e: Event)
    requires Rows(cfg, s) && Rows(cfg, s') && Changed(cfg, s, s', e)
    requires Justified(s)
    ensures Justified(s')
  {
    if e.Write? { JustifiedWriteStep(s, s', e.run); }
    else if e.Submit? || e.Land? || e.Claim? || e.Find? { JustifiedRestStep(cfg, s, s', e); }
    else { JustifiedQuietStep(cfg, s, s', e); }
  }

  lemma JustifiedRestStep(cfg: Config, s: Sys, s': Sys, e: Event)
    requires Justified(s) && Rows(cfg, s) && Changed(cfg, s, s', e)
    requires e.Submit? || e.Land? || e.Claim? || e.Find?
    ensures Justified(s')
  {
    BooksRestWhile(cfg, s, s', e);
    JustifiedRests(s, s');
  }

  lemma JustifiedRests(s: Sys, s': Sys)
    requires Justified(s) && BooksRest(s, s')
    ensures Justified(s')
  {
  }

  lemma JustifiedWriteStep(s: Sys, s': Sys, run: Run)
    requires Justified(s) && Written(s, s', run) && s.sh.row == Some(s.lo.p.run)
    ensures Justified(s')
  {
  }

  lemma JustifiedQuietStep(cfg: Config, s: Sys, s': Sys, e: Event)
    requires Justified(s) && Rows(cfg, s) && Rows(cfg, s') && QuietChange(s, s', e)
    ensures Justified(s')
  {
  }

  lemma InvStep(cfg: Config, s: Sys, s': Sys, e: Event)
    requires Inv(cfg, s) && Rows(cfg, s') && Changed(cfg, s, s', e)
    ensures Inv(cfg, s')
  {
    RequestStep(cfg, s, s', e);
    PaymentStep(cfg, s, s', e);
    BoundedStep(cfg, s, s', e);
    RefundStep(cfg, s, s', e);
    OutcomeStep(cfg, s, s', e);
    JustifiedStep(cfg, s, s', e);
  }

  /** The invariant holds wherever a history leads. */
  lemma {:induction false} InvHolds(cfg: Config, history: seq<Event>)
    requires After(cfg, history).Some?
    ensures Inv(cfg, After(cfg, history).value)
  {
    if history != [] {
      var n := |history| - 1;
      InvHolds(cfg, history[..n]);
      var s := After(cfg, history[..n]).value;
      RowsStep(cfg, s, history[n]);
      Changes(cfg, s, history[n]);
      InvStep(cfg, s, After(cfg, history).value, history[n]);
    }
  }

  /** Settled money leaves the pre-settlement states for good; a recorded amount stays. */
  lemma SettlementIsKept(cfg: Config, p: Process, next: Run)
    requires Shaped(p.run) && MayWrite(cfg, p, next)
    ensures HasSettlementRef(p.run) ==>
              HasSettlementRef(next) && OriginalOf(next) == OriginalOf(p.run)
              && next.settlementAmount == p.run.settlementAmount
    ensures next.settlementRef == p.run.settlementRef
            || (p.stage.Holding? && next.settlementRef == Some(p.stage.ref))
  {
    WritesAreFactual(cfg, p, next);
  }
}
