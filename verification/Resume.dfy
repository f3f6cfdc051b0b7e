/**
 * `resumeRun` of packages/engine/src/run.ts: continue a stored row after a crash, only where its
 * payment can be proved or safely excluded.
 */
module ResumedRuns {
  import opened Prelude
  import opened States
  import opened Runs
  import opened Protocol
  import opened Breaker
  import opened Outside
  import opened RunContexts
  import opened FreshRuns

  predicate MayHavePaid(s: State) {
    s in {Opened, Funded, Retrying, Verifying, Settling}
  }

  /** The row a process resumes, as it read it. */
  ghost predicate Resumed(ctx: RunContext)
    reads ctx, ctx.w
  {
    && Parsed(ctx.w.cfg.schema, ctx.c) && ctx.Synced() && !IsTerminal(ctx.run.state)
    && !ctx.Me().claimed && ctx.Me().entered == ctx.run.state && ctx.Me().stage == Idle
    && !ctx.Me().asked && !ctx.Me().judged
    && (MayYetSettle(ctx.run.state) || ctx.run.state == Settling ==> !HasSettlementRef(ctx.run))
    && (ctx.run.sourceTransactionId.Some? ==> Given(ctx.run.sourceTransactionId))
  }

  /** The process stops here, and the answer says whether the run completed. */
  ghost predicate Stopped(ctx: RunContext, completed: bool)
    reads ctx, ctx.w
  {
    ctx.Synced() && completed == (ctx.run.state == Completed)
  }

  predicate FieldsComplete(run: Run) {
    && Given(run.transactionId) && Given(run.depositAddress)
    && run.settlementAmount.Some? && run.quoteExpiresAt.Some? && run.quoteFirm.Some?
  }

  /** A settled row that says what was settled. */
  predicate CanReconcile(run: Run) {
    Given(run.transactionId) && HasSettlementRef(run)
  }

  /** The payment for this row is on the chain, and the submitter can find it. */
  ghost predicate CanAdopt(cfg: Config, run: Run, c: Corridor, paid: seq<Payment>) {
    && MayHavePaid(run.state) && (run.state == Funded ==> !cfg.gate) && !PinnedElsewhere(run, c)
    && cfg.canFind && FieldsComplete(run) && (c.settings.prefunded || Given(run.sourceTransactionId))
    && FirstPaid(paid, RequestOf(run, c.settings)).Some?
  }

  /** The chain can be asked about this settlement: it was made on Stellar, and its request is on record. */
  predicate Checkable(run: Run) {
    && (run.settlementKind == Some(OnStellar) || (run.settlementKind.None? && Given(run.stellarTxHash)))
    && run.settlement.Some? && (run.settlementRef.Some? ==> run.settlementRef.value.Stellar?)
  }

  /** A run carried on from its settlement completes only on the chain's yes, where the chain can be
      asked, and is parked on its no. */
  predicate HeedsTheChain(run: Run, chainVerifier: bool, verified: Option<bool>) {
    && (run.state == Completed && chainVerifier && Checkable(run) ==> verified == Some(true))
    && (verified == Some(false) ==> run.state == Held)
  }

  /** The payment a run completed on, made or found since it was picked up, is the one its row asks for. */
  predicate PaidAsAsked(run: Run, asset: string) {
    run.state == Completed ==> run.settlement.Some? && Asks(run.settlement.value, run, asset)
  }

  /** A row that only waits for the anchor's word. */
  ghost predicate OnlyWaits(cfg: Config, run: Run, c: Corridor, paid: seq<Payment>) {
    run.state == Reconciled || (run.state == Settled && CanReconcile(run)) || CanAdopt(cfg, run, c, paid)
  }

  /** A recovery whose anchor transaction is known. */
  ghost predicate OnlyRecovers(run: Run, c: Corridor) {
    run.state in {Recovering, RefundPending} && Given(run.transactionId) && !PinnedElsewhere(run, c)
  }

  /** Continue a stored row. If all answers are the ones hoped for, a run whose payment is
      recorded or can be found completes, and a recovery ends refunded. */
  method Resume(ctx: RunContext, ports: Ports, deps: Deps, opts: Options) returns (completed: bool)
    requires Resumed(ctx) && ports.seen.verified.None?
    modifies ctx, ctx.w, ports
    ensures Stopped(ctx, completed)
    ensures old(OnlyWaits(ctx.w.cfg, ctx.run, ctx.c, ctx.w.paid)) && Well(ctx, ports) ==> completed
    ensures old(OnlyRecovers(ctx.run, ctx.c)) && Well(ctx, ports) ==> ctx.run.state == Refunded
    ensures old(ctx.run.state) != Reconciled ==> HeedsTheChain(ctx.run, deps.chainVerifier, ports.seen.verified)
    ensures old(MayHavePaid(ctx.run.state) || ctx.run.state == Funding) ==>
              PaidAsAsked(ctx.run, ctx.c.settings.asset)
    ensures old(ctx.run.state in {Recovering, RefundPending}) ==> ctx.w.Books().0 == old(ctx.w.Books()).0
  {
    var route := ports.Resolve(r => true);
    if route.Some? {
      completed := ResumeRouted(ctx, ports, route.value, deps, opts);
    } else {
      TurnAway(ctx);
      completed := false;
    }
  }

  /** No route: a run that moved no money is failed, any other is left as it is. */
  method TurnAway(ctx: RunContext)
    requires Resumed(ctx)
    modifies ctx, ctx.w
    ensures Stopped(ctx, false) && ctx.w.Books() == old(ctx.w.Books())
    ensures if Unopened(old(ctx.run.state)) then ctx.run.state == Failed
            else ctx.run == old(ctx.run) && ctx.w.trace == old(ctx.w.trace)
  {
    if Unopened(ctx.run.state) { ctx.Die(Fail(RouteRefused, "route resolver refused the corridor")); }
  }

  method ResumeRouted(ctx: RunContext, ports: Ports, route: Route, deps: Deps, opts: Options)
    returns (completed: bool)
    requires Resumed(ctx) && ports.seen.verified.None?
    modifies ctx, ctx.w, ports
    ensures Stopped(ctx, completed)
    ensures old(OnlyWaits(ctx.w.cfg, ctx.run, ctx.c, ctx.w.paid)) && Well(ctx, ports) ==> completed
    ensures old(OnlyRecovers(ctx.run, ctx.c)) && Well(ctx, ports) ==> ctx.run.state == Refunded
    ensures old(ctx.run.state) != Reconciled ==> HeedsTheChain(ctx.run, deps.chainVerifier, ports.seen.verified)
    ensures old(MayHavePaid(ctx.run.state) || ctx.run.state == Funding) ==>
              PaidAsAsked(ctx.run, ctx.c.settings.asset)
    ensures old(ctx.run.state in {Recovering, RefundPending}) ==> ctx.w.Books().0 == old(ctx.w.Books()).0
  {
    completed := false;
    var changed := ManifestHasChanged(ctx);
    ghost var waits := OnlyWaits(ctx.w.cfg, ctx.run, ctx.c, ctx.w.paid) || OnlyRecovers(ctx.run, ctx.c);
    assert changed && ctx.run.state !in {Settled, Reconciled} ==> !waits;
    assert Unopened(ctx.run.state) ==> !waits;
    if changed && ctx.run.state != Settled && ctx.run.state != Reconciled {
      RefuseChanged(ctx);
    } else if Unopened(ctx.run.state) {
      RefuseStale(ctx);
    } else {
      completed := ResumeOpened(ctx, ports, route, deps, opts);
    }
  }

  /** The run stopped before it opened a receiving transaction: fail it. */
  method RefuseStale(ctx: RunContext)
    requires Resumed(ctx) && Unopened(ctx.run.state)
    modifies ctx, ctx.w
    ensures Stopped(ctx, false) && ctx.run.state == Failed && ctx.w.Books() == old(ctx.w.Books())
  {
    ctx.Die(Fail(IdempotencyConflict, "run stopped before opening a receiving transaction"));
  }

  /** The manifest is not the one the run started under, and the run has not settled: fail it. */
  method RefuseChanged(ctx: RunContext)
    requires Resumed(ctx) && Repinned(ctx.Me()) && ctx.run.state !in {Settled, Reconciled}
    modifies ctx, ctx.w
    ensures Stopped(ctx, false) && ctx.run.state == Failed && ctx.w.Books() == old(ctx.w.Books())
  {
    ctx.Die(Fail(ManifestChanged, "corridor manifest changed since run opened"));
  }

  method ManifestHasChanged(ctx: RunContext) returns (changed: bool)
    requires Resumed(ctx)
    ensures changed <==> Repinned(ctx.Me())
  {
    var hash := HashCorridor(ctx.c);
    changed := ctx.run.manifestHash.Some? && ctx.run.manifestHash.value != hash;
  }

  method ResumeOpened(ctx: RunContext, ports: Ports, route: Route, deps: Deps, opts: Options)
    returns (completed: bool)
    requires Resumed(ctx) && !Unopened(ctx.run.state) && !Stranger(ctx.Me()) && ports.seen.verified.None?
    modifies ctx, ctx.w, ports
    ensures Stopped(ctx, completed)
    ensures old(OnlyWaits(ctx.w.cfg, ctx.run, ctx.c, ctx.w.paid)) && Well(ctx, ports) ==> completed
    ensures old(OnlyRecovers(ctx.run, ctx.c)) && Well(ctx, ports) ==> ctx.run.state == Refunded
    ensures old(ctx.run.state) != Reconciled ==> HeedsTheChain(ctx.run, deps.chainVerifier, ports.seen.verified)
    ensures old(MayHavePaid(ctx.run.state) || ctx.run.state == Funding) ==>
              PaidAsAsked(ctx.run, ctx.c.settings.asset)
    ensures old(ctx.run.state in {Recovering, RefundPending}) ==> ctx.w.Books().0 == old(ctx.w.Books()).0
  {
    if ctx.run.state == Recovering || ctx.run.state == RefundPending {
      ResumeRefund(ctx);
      completed := false;
    } else if ctx.run.state == Reconciled {
      Complete(ctx);
      completed := true;
    } else if ctx.run.state == Settled {
      completed := ResumeReconcile(ctx, ports, deps);
    } else {
      completed := ResumeUnsettled(ctx, ports, route, deps, opts);
    }
  }

  method ResumeUnsettled(ctx: RunContext, ports: Ports, route: Route, deps: Deps, opts: Options)
    returns (completed: bool)
    requires Resumed(ctx) && (MayHavePaid(ctx.run.state) || ctx.run.state == Funding) && !Stranger(ctx.Me())
    requires ports.seen.verified.None?
    modifies ctx, ctx.w, ports
    ensures Stopped(ctx, completed)
    ensures old(CanAdopt(ctx.w.cfg, ctx.run, ctx.c, ctx.w.paid)) && Well(ctx, ports) ==> completed
    ensures HeedsTheChain(ctx.run, deps.chainVerifier, ports.seen.verified)
    ensures PaidAsAsked(ctx.run, ctx.c.settings.asset)
  {
    completed := false;
    if ctx.run.state == Funding {
      if !route.hasSending { return; }
      var funded := DepositSource(ctx, ports);
      if !funded { return; }
    }
    if ctx.run.state == Funded && ctx.w.cfg.gate { return; }
    var settled := ResumeSettlement(ctx, ports, route, deps, opts);
    if settled { completed := ResumeReconcile(ctx, ports, deps); }
  }

  /** A resumed process at a run whose payment may or may not have gone out. */
  ghost predicate Unsure(ctx: RunContext)
    reads ctx, ctx.w
  {
    && ctx.Synced() && !ctx.Me().claimed && MayHavePaid(ctx.run.state)
    && !Repinned(ctx.Me()) && !ctx.Me().asked && !ctx.Me().judged
    && ctx.Me().entered !in {Recovering, RefundPending} && !HasSettlementRef(ctx.run)
    && (ctx.Me().entered == Settling <==> ctx.run.state == Settling)
    && (ctx.w.cfg.gate ==> ctx.run.state != Funded)
    && (ctx.run.sourceTransactionId.Some? ==> Given(ctx.run.sourceTransactionId))
  }

  /** Nothing was written, and nobody was asked to pay. */
  twostate predicate LeftAlone(ctx: RunContext)
    reads ctx, ctx.w
  {
    ctx.run == old(ctx.run) && ctx.w.trace == old(ctx.w.trace)
  }

  /** The settlement on the row is for what the row asks. */
  ghost predicate SettledAsAsked(ctx: RunContext)
    reads ctx
  {
    ctx.run.settlement.Some? && Asks(ctx.run.settlement.value, ctx.run, ctx.c.settings.asset)
  }

  /** Find the payment a crash may have left behind, or make it where that is safe. */
  method ResumeSettlement(ctx: RunContext, ports: Ports, route: Route, deps: Deps, opts: Options)
    returns (settled: bool)
    requires Unsure(ctx) && ctx.Me().stage == Idle
    modifies ctx, ctx.w, ports
    ensures settled ==> MayReconcile(ctx) && CanReconcile(ctx.run) && SettledAsAsked(ctx)
    ensures !settled ==> Stopped(ctx, false)
    ensures ports.seen.verified == old(ports.seen.verified)
    ensures old(CanAdopt(ctx.w.cfg, ctx.run, ctx.c, ctx.w.paid)) && Well(ctx, ports) ==> settled
    // What cannot be looked for is left alone, or parked where its quote has lapsed.
    ensures !old(FieldsComplete(ctx.run)) ==> LeftAlone(ctx)
    ensures !ctx.w.cfg.canFind ==>
              !settled && (LeftAlone(ctx) || (old(ctx.run.state) == Funded && ctx.run.state == Held))
  {
    settled := false;
    if !FieldsComplete(ctx.run) { return; }
    if ctx.run.state == Funded && ctx.run.quoteFirm.value {
      var now := ports.Now(ctx.run.quoteExpiresAt.value);
      if Expired(true, ctx.run.quoteExpiresAt.value, now) {
        ctx.HoldAndStop(Fail(QuoteExpired, "stored quote expired during source funding"), QuoteExpired);
        return;
      }
    }
    if ctx.w.cfg.canFind { settled := FindOrPay(ctx, ports, route, deps, opts); }
  }

  method FindOrPay(ctx: RunContext, ports: Ports, route: Route, deps: Deps, opts: Options)
    returns (settled: bool)
    requires Unsure(ctx) && ctx.Me().stage == Idle && FieldsComplete(ctx.run) && ctx.w.cfg.canFind
    modifies ctx, ctx.w, ports
    ensures settled ==> MayReconcile(ctx) && CanReconcile(ctx.run) && SettledAsAsked(ctx)
    ensures !settled ==> Stopped(ctx, false)
    ensures ports.seen.verified == old(ports.seen.verified)
    ensures old(CanAdopt(ctx.w.cfg, ctx.run, ctx.c, ctx.w.paid)) && ctx.w.smooth ==> settled
  {
    var req := RequestOf(ctx.run, ctx.c.settings);
    var found := ctx.w.FindExisting(req);
    if found.Err? {
      settled := false;
    } else if found.value.Some? {
      settled := AdoptPayment(ctx, req, found.value.value);
    } else {
      settled := Resubmit(ctx, ports, route, deps, opts, req);
    }
  }

  /** A payment for this very request exists: record it instead of paying. */
  method AdoptPayment(ctx: RunContext, req: Request, ref: Ref) returns (settled: bool)
    requires Unsure(ctx) && ctx.Me().stage == Holding(req, ref) && FieldsComplete(ctx.run)
    requires req == RequestOf(ctx.run, ctx.c.settings)
    modifies ctx, ctx.w
    ensures settled == old(Drawn(ctx.Me()))
    ensures settled ==> MayReconcile(ctx) && CanReconcile(ctx.run) && SettledAsAsked(ctx)
                        && ctx.run.settlementRef == Some(ref) && ctx.run.settlement == Some(req)
    ensures !settled ==> Stopped(ctx, false) && ctx.w.trace == old(ctx.w.trace)
  {
    settled := false;
    if !ctx.c.settings.prefunded && !Given(ctx.run.sourceTransactionId) { return; }
    WalkToSettling(ctx);
    RecordFound(ctx, req, ref);
    settled := true;
  }

  /** `opened`, `funded` or `retrying` to `verifying` to `settling`, one legal step at a time. */
  method WalkToSettling(ctx: RunContext)
    requires Unsure(ctx) && MayWalkOn(ctx.w.cfg, ctx.Me())
    requires ctx.Me().stage.Clear? ==> QuoteBinds(ctx.run, ctx.Me().stage.since)
    modifies ctx, ctx.w
    ensures AtSettling(ctx) && ctx.Me().stage == old(ctx.Me()).stage
    ensures ctx.Me().entered == old(ctx.Me()).entered
    ensures ctx.run == old(ctx.run).(state := Settling, version := ctx.run.version)
  {
    if ctx.run.state != Verifying && ctx.run.state != Settling {
      var verifying := ctx.Advance(Verifying);
      assert verifying;
    }
    if ctx.run.state == Verifying {
      var settling := ctx.Advance(Settling);
      assert settling;
    }
  }

  /** A resumed process that has `settling` on its row. */
  ghost predicate AtSettling(ctx: RunContext)
    reads ctx, ctx.w
  {
    && ctx.Synced() && !ctx.Me().claimed && ctx.run.state == Settling && !Repinned(ctx.Me())
    && !ctx.Me().asked && !ctx.Me().judged && !HasSettlementRef(ctx.run)
    && ctx.Me().entered !in {Recovering, RefundPending}
  }

  method RecordFound(ctx: RunContext, req: Request, ref: Ref)
    requires AtSettling(ctx) && ctx.Me().stage == Holding(req, ref)
    modifies ctx, ctx.w
    ensures MayReconcile(ctx) && (old(Asks(req, ctx.run, ctx.c.settings.asset)) ==> SettledAsAsked(ctx))
    ensures ctx.run == RecordSettlement(old(Step(ctx.run, Settled)), req, ref)
  {
    SettledIsAllowed(ctx.w.cfg, ctx.Me());
    ctx.run := RecordSettlement(ctx.run, req, ref);
    var settled := ctx.Advance(Settled);
    assert settled;
  }

  /** No such payment: pay, unless a settlement may be in flight, the quote is gone, the route
      is not trusted, or there is a gate that cannot be asked again. */
  method Resubmit(ctx: RunContext, ports: Ports, route: Route, deps: Deps, opts: Options, req: Request)
    returns (settled: bool)
    requires Unsure(ctx) && FieldsComplete(ctx.run) && ctx.Me().stage == Clear(req, None)
    requires req == RequestOf(ctx.run, ctx.c.settings)
    modifies ctx, ctx.w, ports
    ensures settled ==> MayReconcile(ctx) && CanReconcile(ctx.run) && SettledAsAsked(ctx)
    ensures !settled ==> Stopped(ctx, false)
    ensures ports.seen.verified == old(ports.seen.verified)
    ensures old(ctx.run.state == Settling || ctx.w.cfg.gate) ==> !settled
    ensures settled && ctx.c.settings.publicNetwork ==> route.attested || deps.trustManifest || opts.trustManifest
  {
    settled := false;
    if ctx.run.state == Settling { return; }
    if ctx.run.quoteFirm.value {
      var now := ports.Now(ctx.run.quoteExpiresAt.value);
      if Expired(true, ctx.run.quoteExpiresAt.value, now) {
        ctx.Die(Fail(QuoteExpired, "stored quote expired before resumed settlement"));
        return;
      }
    }
    if UntrustedRoute(ctx.c.settings, route, deps, opts) {
      ctx.Die(Fail(ManifestInvalid, "untrusted route"));
      return;
    }
    if ctx.w.cfg.gate { return; }
    settled := ComplyAndPay(ctx, ports, route, req);
  }

  /** A resumed process that looked, found nothing, and has no gate to pass. */
  ghost predicate MayPay(ctx: RunContext, req: Request)
    reads ctx, ctx.w
  {
    && Unsure(ctx) && FieldsComplete(ctx.run) && ctx.Me().stage == Clear(req, None)
    && !ctx.w.cfg.gate && ctx.run.state != Settling && req == RequestOf(ctx.run, ctx.c.settings)
  }

  method ComplyAndPay(ctx: RunContext, ports: Ports, route: Route, req: Request) returns (settled: bool)
    requires MayPay(ctx, req)
    modifies ctx, ctx.w, ports
    ensures settled ==> MayReconcile(ctx) && CanReconcile(ctx.run) && SettledAsAsked(ctx)
                        && (route.kycNone || ports.seen.complied)
    ensures !settled ==> Stopped(ctx, false)
    ensures ports.seen.verified == old(ports.seen.verified)
  {
    settled := false;
    if !route.kycNone {
      var problem := ports.EnsureCompliance();
      if problem.Some? { ctx.Die(problem.value); return; }
    }
    var funded := ResumeFunding(ctx, ports, route.hasSending, req);
    if funded { settled := PayResumed(ctx, req); }
  }

  method ResumeFunding(ctx: RunContext, ports: Ports, hasSending: bool, req: Request) returns (ok: bool)
    requires MayPay(ctx, req)
    modifies ctx, ctx.w, ports
    ensures ok ==> MayPay(ctx, req) && Drawn(ctx.Me()) && OnlyDrew(old(ports.seen), ports.seen)
    ensures !ok ==> Stopped(ctx, false)
    ensures ports.seen.verified == old(ports.seen.verified)
  {
    ok := false;
    if !ctx.c.settings.prefunded && !Given(ctx.run.sourceTransactionId) {
      if !hasSending || ctx.run.state != Opened { return; }
      var funding := ctx.Advance(Funding);
      assert funding;
      ok := DepositSource(ctx, ports);
    } else {
      ok := true;
    }
  }

  method PayResumed(ctx: RunContext, req: Request) returns (settled: bool)
    requires MayPay(ctx, req) && Drawn(ctx.Me())
    modifies ctx, ctx.w
    ensures settled ==> MayReconcile(ctx) && CanReconcile(ctx.run) && SettledAsAsked(ctx)
    ensures !settled ==> Stopped(ctx, false) && !ctx.w.smooth
  {
    var binds := QuoteStillBinds(ctx, req);
    if binds {
      settled := SubmitResumed(ctx, req);
    } else {
      settled := false;
    }
  }

  method QuoteStillBinds(ctx: RunContext, req: Request) returns (ok: bool)
    requires MayPay(ctx, req) && Drawn(ctx.Me())
    modifies ctx, ctx.w
    ensures ok ==> Bindable(ctx, req)
    ensures !ok ==> Stopped(ctx, false) && !ctx.w.smooth
  {
    ok := true;
    if ctx.run.quoteFirm.value {
      var at := ctx.w.ReadClock(ctx.run.quoteExpiresAt.value);
      if Expired(true, ctx.run.quoteExpiresAt.value, at) {
        ok := false;
        ExpireResumed(ctx);
      }
    }
  }

  method ExpireResumed(ctx: RunContext)
    requires Unsure(ctx) && ctx.Me().stage.Clear? && !ctx.w.cfg.gate && ctx.run.state != Settling
    modifies ctx, ctx.w
    ensures Stopped(ctx, false) && (ctx.w.smooth ==> old(ctx.w.smooth))
    ensures Given(old(ctx.run.sourceTransactionId)) ==> ctx.run.state == Held
  {
    var error := Fail(QuoteExpired, "stored quote expired before settlement");
    if Given(ctx.run.sourceTransactionId) {
      ctx.HoldAndStop(error, QuoteExpired);
    } else {
      ctx.FinishFailure(error);
    }
  }

  /** A resumed process that may submit `req` once it has walked to `settling`. */
  ghost predicate Bindable(ctx: RunContext, req: Request)
    reads ctx, ctx.w
  {
    && Unsure(ctx) && Drawn(ctx.Me()) && ctx.Me().stage.Clear? && ctx.Me().stage.req == req
    && QuoteBinds(ctx.run, ctx.Me().stage.since) && !ctx.w.cfg.gate && ctx.run.state != Settling
    && FieldsComplete(ctx.run) && req == RequestOf(ctx.run, ctx.c.settings)
  }

  method SubmitResumed(ctx: RunContext, req: Request) returns (settled: bool)
    requires Bindable(ctx, req)
    modifies ctx, ctx.w
    ensures settled ==> MayReconcile(ctx) && CanReconcile(ctx.run) && SettledAsAsked(ctx)
                        && ctx.run.settlement == Some(req)
    ensures !settled ==> Stopped(ctx, false) && !ctx.w.smooth && ctx.run.state == EndOf(ctx.c.settings.rollback)
  {
    assert Asks(req, ctx.run, ctx.c.settings.asset);
    WalkToSettling(ctx);
    assert Asks(req, ctx.run, ctx.c.settings.asset);
    var submitted := ctx.w.SubmitPayment(req);
    settled := submitted.Ok?;
    if submitted.Ok? {
      RecordFound(ctx, req, submitted.value);
    } else {
      ctx.FinishFailure(submitted.error);
    }
  }

  /** Carry a settled run to its end: never settle again, only check and wait. */
  method ResumeReconcile(ctx: RunContext, ports: Ports, deps: Deps) returns (completed: bool)
    requires ctx.Synced() && ctx.run.state == Settled && (HasSettlementRef(ctx.run) ==> MayReconcile(ctx))
    requires ports.seen.verified.None?
    modifies ctx, ctx.w, ports
    ensures Stopped(ctx, completed)
    // The chain is asked about every settlement it can be asked about, and its word is heeded.
    ensures deps.chainVerifier && old(CanReconcile(ctx.run) && Checkable(ctx.run)) <==> ports.seen.verified.Some?
    ensures HeedsTheChain(ctx.run, deps.chainVerifier, ports.seen.verified)
    ensures old(CanReconcile(ctx.run)) && Well(ctx, ports) ==> completed
    ensures completed ==> ctx.run == old(ctx.run).(state := Completed, version := ctx.run.version)
    ensures ports.seen.smooth ==> old(ports.seen.smooth)
  {
    completed := false;
    if !Given(ctx.run.transactionId) || !HasSettlementRef(ctx.run) { return; }
    var onChain := ctx.run.settlementKind == Some(OnStellar)
                   || (ctx.run.settlementKind.None? && Given(ctx.run.stellarTxHash));
    if deps.chainVerifier && onChain && ctx.run.settlement.Some?
       && (ctx.run.settlementRef.Some? ==> ctx.run.settlementRef.value.Stellar?) {
      var problem := ports.VerifyOnChain();
      if problem.Some? { ctx.HoldAndStop(problem.value, problem.value.code); return; }
    }
    completed := ReconcileAndComplete(ctx);
  }

  /** Carry a recovery to its end: never ask for a second refund, only wait for the anchor's. */
  method ResumeRefund(ctx: RunContext)
    requires Resumed(ctx) && ctx.run.state in {Recovering, RefundPending} && !Stranger(ctx.Me())
    modifies ctx, ctx.w
    ensures Stopped(ctx, false) && ctx.w.Books().0 == old(ctx.w.Books()).0
    ensures old(Given(ctx.run.transactionId)) && ctx.w.smooth ==> ctx.run.state == Refunded
    // The breaker judges the failure that was stored, if that one counts against a lane.
    ensures forall e: Error | old(Given(ctx.run.transactionId)) && old(ctx.run.lastError) == Some(ErrorText(e)) ::
              ctx.w.Books().1 == old(ctx.w.Books()).1
                + Told(ctx.w.cfg, ctx.run.state, Some(if IsLaneFailure(e.code) then e.code else ReconcileMismatch))
  {
    if !Given(ctx.run.transactionId) { return; }
    ghost var mismatch := Fail(ReconcileMismatch, "receiving transaction was refunded");
    forall e: Error | ctx.run.lastError == Some(ErrorText(e))
      ensures RecoveredCause(ctx.run.lastError, mismatch).code
           == if IsLaneFailure(e.code) then e.code else ReconcileMismatch
    {
      CauseSurvivesARestart(e, mismatch);
    }
    var cause := RecoveredCause(ctx.run.lastError, Fail(ReconcileMismatch, "receiving transaction was refunded"));
    if HasRequestedRefund(ctx.run) {
      RefundedIsAllowed(ctx.w.cfg, ctx.Me(), ctx.run.lastError);
      ctx.End(Refunded, cause.code);
    } else {
      WaitForRefund(ctx, cause.code);
    }
  }

  method WaitForRefund(ctx: RunContext, cause: Code)
    requires Resumed(ctx) && ctx.run.state in {Recovering, RefundPending} && !Stranger(ctx.Me())
    modifies ctx, ctx.w
    ensures Stopped(ctx, false) && ctx.run.state in {Refunded, Held}
    ensures ctx.w.Books() == (old(ctx.w.Books()).0,
                              old(ctx.w.Books()).1 + Told(ctx.w.cfg, ctx.run.state, Some(cause)))
    ensures ctx.w.smooth ==> ctx.run.state == Refunded
  {
    if ctx.run.state == Recovering {
      var pending := ctx.Advance(RefundPending);
      assert pending;
    }
    var report := ctx.w.Watch();
    match report
    case Ok(id) => ctx.RecordAnchorRefund(id, None, cause);
    case Err(watch) => ctx.HoldAndStop(watch, cause);
  }
}
