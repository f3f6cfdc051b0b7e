/**
 * A claimed run from its route to its end: `execute` of packages/engine/src/run.ts once the key
 * is claimed, with the verbs it drives (packages/engine/src/verbs.ts). Every write and every call
 * outside is one that Protocol.dfy allows; a run that does not complete has met an answer that
 * was not the one hoped for, and a run that completes has met none that mattered.
 */
module FreshRuns {
  import opened Prelude
  import opened States
  import opened Runs
  import opened Protocol
  import opened Outside
  import opened RunContexts

  datatype Deps = Deps(
    unsafeSkipGate: bool, chainVerifier: bool, trustManifest: bool,
    quoteProvider: bool, externalQuote: bool, unprovenMaxAmount: int)

  datatype Options = Options(owner: Option<string>, trustManifest: bool, dryRun: bool)

  // ----- What the route has to be ------------------------------------------------------------

  predicate UntrustedRoute(s: Settings, route: Route, deps: Deps, opts: Options) {
    s.publicNetwork && !route.attested && !deps.trustManifest && !opts.trustManifest
  }

  /** Why a fresh run fails before its quote. */
  function ConfigProblem(s: Settings, route: Route, deps: Deps, opts: Options): (problem: Option<Error>)
    ensures problem.None? <==>
              && route.compatible
              && (s.publicNetwork ==> route.attested || deps.trustManifest || opts.trustManifest)
              && (!deps.quoteProvider && s.quoteSource == Native ==> route.nativeQuotes)
              && (!deps.quoteProvider && s.quoteSource == External ==>
                    deps.externalQuote && (s.receiverHoldsRisk ==> route.nativeQuotes))
  {
    if !route.compatible then Some(Fail(CapabilityMismatch, "adapter does not fit the corridor"))
    else if UntrustedRoute(s, route, deps, opts) then Some(Fail(ManifestInvalid, "untrusted route"))
    else if deps.quoteProvider then None
    else if s.quoteSource == External && s.receiverHoldsRisk && !route.nativeQuotes then
      Some(Fail(ManifestInvalid, "external rate cannot bind the receiving anchor"))
    else if s.quoteSource == External && !deps.externalQuote then
      Some(Fail(QuoteUnavailable, "no external quote function"))
    else if s.quoteSource == Native && !route.nativeQuotes then
      Some(Fail(ManifestInvalid, "adapter reports no native quotes"))
    else None
  }

  /** The route hoped for: one that fits the corridor, with a sending side where one is drawn. */
  predicate Suits(s: Settings, route: Route, deps: Deps, opts: Options) {
    ConfigProblem(s, route, deps, opts).None? && (s.prefunded || route.hasSending)
  }

  /** The opened transaction hoped for: one that some settlement strategy takes. */
  predicate Payable(s: Settings, tx: Transaction) {
    (tx.instructions.StellarPayment? && !NeedsPathPayment(s)) || tx.instructions.AdapterSettled?
  }

  // ----- Where a run stands --------------------------------------------------------------------

  /** Every answer so far was the one hoped for. */
  ghost predicate Well(ctx: RunContext, ports: Ports)
    reads ctx, ctx.w, ports
  {
    ctx.w.smooth && ports.seen.smooth
  }

  /** A claimed run with no settlement yet and nothing in hand. */
  ghost predicate Early(ctx: RunContext, dry: bool, attempt: nat)
    reads ctx, ctx.w
  {
    && ctx.Synced() && ctx.Me().claimed && ctx.Me().entered == Created
    && ctx.Me().dry == dry && ctx.Me().attempt == attempt
    && !ctx.Me().asked && !ctx.Me().judged && !HasSettlementRef(ctx.run)
    && !ctx.Me().stage.Holding?
  }

  /** ... at a point where its process waits for nothing. */
  ghost predicate EarlyAt(ctx: RunContext, dry: bool, state: State)
    reads ctx, ctx.w
  {
    Early(ctx, dry, 0) && ctx.Me().stage == Idle && ctx.run.state == state
  }

  /** The run ended here, and the answer says whether it completed. */
  ghost predicate Ended(ctx: RunContext, completed: bool)
    reads ctx, ctx.w
  {
    ctx.Synced() && IsTerminal(ctx.run.state) && completed == (ctx.run.state == Completed)
  }

  /** The run ended short of completion, and not for nothing. */
  ghost predicate Gone(ctx: RunContext, ports: Ports, dry: bool)
    reads ctx, ctx.w, ports
  {
    Ended(ctx, false) && (dry || !Well(ctx, ports))
  }

  predicate CarriesQuote(run: Run, q: Quote) {
    && run.settlementAmount == Some(q.amount) && run.quoteFirm == Some(q.firm)
    && run.quoteExpiresAt == Some(q.expiresAt) && run.quoteId == Some(q.id)
  }

  /** The run recorded this quote and this opened transaction. */
  predicate Carries(run: Run, q: Quote, tx: Transaction) {
    && CarriesQuote(run, q) && run.transactionId == Some(tx.transactionId)
    && run.depositAddress == tx.depositAddress && run.memo == tx.memo && run.memoType == tx.memoType
  }

  function BuildRequest(q: Quote, tx: Transaction, s: Settings): Request {
    Request(if tx.depositAddress.Some? then tx.depositAddress.value else "",
            tx.memo, tx.memoType, s.asset, q.amount)
  }

  /** The request a fresh pass submits is the one its row says. */
  lemma BuiltAsRecorded(run: Run, q: Quote, tx: Transaction, s: Settings)
    requires Carries(run, q, tx)
    ensures BuildRequest(q, tx, s) == RequestOf(run, s) && Asks(RequestOf(run, s), run, s.asset)
    ensures var r := BuildRequest(q, tx, s);
            && (tx.depositAddress == Some(r.to) || (tx.depositAddress.None? && r.to == ""))
            && r.memo == tx.memo && r.memoType == tx.memoType && r.asset == s.asset && r.amount == q.amount
  {
  }

  /** The firm quote is past its deadline. */
  predicate Expired(firm: bool, expiresAt: int, now: int) {
    firm && expiresAt <= now
  }

  // ----- Quote, comply, open, fund ---------------------------------------------------------------

  /** Get a quote that is still good, and record it. */
  method QuoteRun(ctx: RunContext, ports: Ports, ghost dry: bool) returns (r: Option<Quote>)
    requires EarlyAt(ctx, dry, Created)
    modifies ctx, ctx.w, ports
    ensures r.None? ==> Gone(ctx, ports, dry)
    ensures r.Some? ==>
              && EarlyAt(ctx, dry, Quoted) && CarriesQuote(ctx.run, r.value)
              && ctx.run.sourceTransactionId == old(ctx.run.sourceTransactionId)
              && ports.seen == old(ports.seen).(quote := r, smooth := ports.seen.smooth)
              && (ports.seen.smooth ==> old(ports.seen.smooth) && !SettleQuoteProblem(r.value, ctx.c.settings))
  {
    r := None;
    ghost var s := ctx.c.settings;
    var q := ports.RequestQuote(quote => !SettleQuoteProblem(quote, s));
    if q.Err? { ctx.Die(q.error); return; }
    if q.value.firm {
      var now := ports.Now(q.value.expiresAt);
      if Expired(q.value.firm, q.value.expiresAt, now) {
        ctx.Die(Error(QuoteExpired, "quote expired before use", true, false));
        return;
      }
    }
    RecordQuote(ctx, q.value, dry);
    r := Some(q.value);
  }

  method RecordQuote(ctx: RunContext, q: Quote, ghost dry: bool)
    requires EarlyAt(ctx, dry, Created)
    modifies ctx, ctx.w
    ensures EarlyAt(ctx, dry, Quoted) && CarriesQuote(ctx.run, q)
    ensures ctx.run.sourceTransactionId == old(ctx.run.sourceTransactionId)
  {
    ctx.run := ctx.run.(quoteId := Some(q.id), quoteExpiresAt := Some(q.expiresAt),
                        quoteFirm := Some(q.firm), settlementAmount := Some(q.amount));
    var quoted := ctx.Advance(Quoted);
    assert quoted;
  }

  /** Have the receiving anchor clear the customer, unless it asks for nothing. */
  method ComplyRun(ctx: RunContext, ports: Ports, kycNone: bool, ghost dry: bool) returns (ok: bool)
    requires EarlyAt(ctx, dry, Quoted)
    modifies ctx, ctx.w, ports
    ensures !ok ==> Gone(ctx, ports, dry)
    ensures ok ==> EarlyAt(ctx, dry, Compliant) && ctx.run == old(Step(ctx.run, Compliant))
    ensures ok ==>
              && ports.seen == old(ports.seen).(complied := ports.seen.complied, smooth := ports.seen.smooth)
              && (ports.seen.smooth ==> old(ports.seen.smooth)) && (kycNone || ports.seen.complied)
  {
    ok := false;
    if !kycNone {
      var problem := ports.EnsureCompliance();
      if problem.Some? { ctx.Die(problem.value); return; }
    }
    ok := ctx.Advance(Compliant);
  }

  /** Open the receiving transaction, and record where and how to pay. */
  method OpenRun(ctx: RunContext, ports: Ports, ghost dry: bool) returns (r: Option<Transaction>)
    requires EarlyAt(ctx, dry, Compliant)
    modifies ctx, ctx.w, ports
    ensures r.None? ==> Gone(ctx, ports, dry)
    ensures r.Some? ==>
              EarlyAt(ctx, dry, Opened)
              && ctx.run == old(Step(ctx.run, Opened)).(
                   transactionId := Some(r.value.transactionId), depositAddress := r.value.depositAddress,
                   memo := r.value.memo, memoType := r.value.memoType)
    ensures r.Some? ==>
              && ports.seen == old(ports.seen).(transaction := r, smooth := ports.seen.smooth)
              && (ports.seen.smooth ==> old(ports.seen.smooth) && Payable(ctx.c.settings, r.value))
  {
    r := None;
    ghost var s := ctx.c.settings;
    var tx := ports.OpenTransaction(t => Payable(s, t));
    if tx.Err? { ctx.Die(tx.error); return; }
    ctx.run := ctx.run.(transactionId := Some(tx.value.transactionId), depositAddress := tx.value.depositAddress,
                        memo := tx.value.memo, memoType := tx.value.memoType);
    var done := ctx.Advance(Opened);
    assert done;
    r := Some(tx.value);
  }

  /** Draw the payment from the sending anchor: `opened` to `funded`. */
  method FundRun(ctx: RunContext, ports: Ports, hasSending: bool, q: Quote, tx: Transaction) returns (ok: bool)
    requires EarlyAt(ctx, false, Opened) && Carries(ctx.run, q, tx)
    requires ctx.run.sourceTransactionId.None? && !ctx.c.settings.prefunded
    requires ports.seen.smooth ==> hasSending
    modifies ctx, ctx.w, ports
    ensures !ok ==> Gone(ctx, ports, false)
    ensures ok ==> EarlyAt(ctx, false, Funded) && Carries(ctx.run, q, tx) && Drawn(ctx.Me())
    ensures ok ==> OnlyDrew(old(ports.seen), ports.seen) && ports.seen.deposited
                   && ctx.run.sourceTransactionId == ports.seen.depositId
  {
    ok := false;
    if !hasSending {
      ctx.Die(Fail(EngineMisconfigured, "a sending adapter is required"));
      return;
    }
    var funding := ctx.Advance(Funding);
    assert funding;
    ok := DepositSource(ctx, ports);
  }

  /** Only the sending side was dealt with. */
  ghost predicate OnlyDrew(before: Dealings, now: Dealings) {
    && now == before.(depositId := now.depositId, deposited := now.deposited, smooth := now.smooth)
    && (now.smooth ==> before.smooth)
  }

  /** A process whose run is in `funding` and may go on. */
  ghost predicate MayDeposit(ctx: RunContext)
    reads ctx, ctx.w
  {
    && ctx.MayRefundNow() && ctx.run.state == Funding && !HasSettlementRef(ctx.run)
    && (ctx.run.sourceTransactionId.Some? ==> Given(ctx.run.sourceTransactionId))
  }

  /** Open the source deposit, unless the row already names one, and wait for it. */
  method DepositSource(ctx: RunContext, ports: Ports) returns (ok: bool)
    requires MayDeposit(ctx)
    modifies ctx, ctx.w, ports
    ensures !ok ==> Gone(ctx, ports, false)
    ensures ok ==>
              && ctx.Synced() && ctx.run.state == Funded && Given(ctx.run.sourceTransactionId)
              && ctx.run == old(ctx.run).(state := Funded, version := ctx.run.version,
                                          sourceTransactionId := ctx.run.sourceTransactionId)
              && ctx.Me() == old(ctx.Me()).(run := ctx.run)
    ensures ok ==>
              && OnlyDrew(old(ports.seen), ports.seen) && ports.seen.deposited
              && ctx.run.sourceTransactionId ==
                 if Given(old(ctx.run.sourceTransactionId)) then old(ctx.run.sourceTransactionId)
                 else ports.seen.depositId
    ensures ports.seen.verified == old(ports.seen.verified)
  {
    ok := false;
    if !Given(ctx.run.sourceTransactionId) {
      var id := ports.OpenDeposit();
      if id.Err? { ctx.FinishFailure(id.error); return; }
      ctx.NoteDeposit(id.value);
    }
    ok := AwaitDeposit(ctx, ports);
  }

  method AwaitDeposit(ctx: RunContext, ports: Ports) returns (ok: bool)
    requires MayDeposit(ctx) && Given(ctx.run.sourceTransactionId)
    modifies ctx, ctx.w, ports
    ensures !ok ==> Gone(ctx, ports, false)
    ensures ok ==> ctx.Synced() && ctx.run == old(Step(ctx.run, Funded)) && ctx.Me() == old(ctx.Me()).(run := ctx.run)
    ensures ok ==> ports.seen == old(ports.seen).(deposited := true, smooth := ports.seen.smooth)
                   && (ports.seen.smooth ==> old(ports.seen.smooth))
    ensures ports.seen.verified == old(ports.seen.verified)
  {
    var problem := ports.WaitForDeposit();
    if problem.Some? {
      ctx.FinishFailure(problem.value);
      return false;
    }
    ok := ctx.Advance(Funded);
  }

  // ----- Gate, settle, reconcile -------------------------------------------------------------------

  /** At the top of the settlement loop, for the `attempt`th time. */
  ghost predicate AtLoop(ctx: RunContext, q: Quote, tx: Transaction, dry: bool, attempt: nat)
    reads ctx, ctx.w
  {
    && Early(ctx, dry, attempt) && Carries(ctx.run, q, tx) && Drawn(ctx.Me())
    && (if ctx.run.state == Retrying then ctx.Me().stage == Rested
        else ctx.run.state in {Opened, Funded} && ctx.Me().stage == Idle)
  }

  /** The quote and the transaction are the ones hoped for, if all went well so far. */
  ghost predicate Fits(ctx: RunContext, ports: Ports, q: Quote, tx: Transaction)
    reads ctx, ports
  {
    ports.seen.smooth ==> !SettleQuoteProblem(q, ctx.c.settings) && Payable(ctx.c.settings, tx)
  }

  /** Since then only the settlement was checked on the chain. */
  ghost predicate OnlyVerified(before: Dealings, now: Dealings) {
    && now == before.(verified := now.verified, smooth := now.smooth)
    && (now.smooth ==> before.smooth)
  }

  /** What a failed check does with a run that has settled nothing: park it if the sender's
      deposit was taken, otherwise fail it. */
  method HoldOrDie(ctx: RunContext, error: Error, ghost dry: bool, ghost attempt: nat)
    requires Early(ctx, dry, attempt) && CanTransition(ctx.run.state, Recovering)
    modifies ctx, ctx.w
    ensures Ended(ctx, false) && (ctx.w.smooth ==> old(ctx.w.smooth))
    ensures ctx.run.state == (if Given(old(ctx.run.sourceTransactionId)) then Held else Failed)
  {
    if Given(ctx.run.sourceTransactionId) {
      ctx.HoldAndStop(error, error.code);
    } else {
      ctx.Die(error);
    }
  }

  method HoldOrFinish(ctx: RunContext, error: Error, ghost dry: bool, ghost attempt: nat)
    requires Early(ctx, dry, attempt) && CanTransition(ctx.run.state, Recovering)
    modifies ctx, ctx.w
    ensures Ended(ctx, false) && (ctx.w.smooth ==> old(ctx.w.smooth))
    ensures Given(old(ctx.run.sourceTransactionId)) ==> ctx.run.state == Held
  {
    if Given(ctx.run.sourceTransactionId) {
      ctx.HoldAndStop(error, error.code);
    } else {
      ctx.FinishFailure(error);
    }
  }

  /** Time left in the corridor's timeout. */
  method CheckDeadline(ctx: RunContext, ports: Ports, q: Quote, tx: Transaction, deadline: int,
                       ghost dry: bool, ghost attempt: nat) returns (ok: bool)
    requires AtLoop(ctx, q, tx, dry, attempt)
    modifies ctx, ctx.w, ports
    ensures if ok then AtLoop(ctx, q, tx, dry, attempt) else Gone(ctx, ports, false)
    ensures OnlyVerified(old(ports.seen), ports.seen)
  {
    var now := ports.Now(deadline);
    ok := now < deadline;
    if !ok { ctx.FinishFailure(Fail(SettlementTimeout, "exceeded the corridor's timeout")); }
  }

  /** A quote that still binds. */
  method CheckExpiry(ctx: RunContext, ports: Ports, q: Quote, tx: Transaction,
                     ghost dry: bool, ghost attempt: nat) returns (ok: bool)
    requires AtLoop(ctx, q, tx, dry, attempt) && q.firm
    modifies ctx, ctx.w, ports
    ensures if ok then AtLoop(ctx, q, tx, dry, attempt) else Gone(ctx, ports, false)
    ensures OnlyVerified(old(ports.seen), ports.seen)
  {
    var now := ports.Now(q.expiresAt);
    ok := !Expired(q.firm, q.expiresAt, now);
    if !ok { HoldOrFinish(ctx, Fail(QuoteExpired, "quote expired during retry"), dry, attempt); }
  }

  method CheckTime(ctx: RunContext, ports: Ports, q: Quote, tx: Transaction, deadline: int,
                   ghost dry: bool, ghost attempt: nat) returns (ok: bool)
    requires AtLoop(ctx, q, tx, dry, attempt)
    modifies ctx, ctx.w, ports
    ensures if ok then AtLoop(ctx, q, tx, dry, attempt) else Gone(ctx, ports, false)
    ensures OnlyVerified(old(ports.seen), ports.seen)
  {
    ok := CheckDeadline(ctx, ports, q, tx, deadline, dry, attempt);
    if ok && q.firm { ok := CheckExpiry(ctx, ports, q, tx, dry, attempt); }
  }

  /** The checks at the top of a pass: time left, quote still binding, quote settleable. */
  method CheckPass(ctx: RunContext, ports: Ports, q: Quote, tx: Transaction, deadline: int,
                   ghost dry: bool, ghost attempt: nat) returns (ok: bool)
    requires AtLoop(ctx, q, tx, dry, attempt) && Fits(ctx, ports, q, tx)
    modifies ctx, ctx.w, ports
    ensures !ok ==> Gone(ctx, ports, false)
    ensures ok ==> AtLoop(ctx, q, tx, dry, attempt) && !SettleQuoteProblem(q, ctx.c.settings)
    ensures OnlyVerified(old(ports.seen), ports.seen)
  {
    ok := CheckTime(ctx, ports, q, tx, deadline, dry, attempt);
    if ok && SettleQuoteProblem(q, ctx.c.settings) {
      RefuseQuote(ctx, ports, q, tx, dry, attempt);
      ok := false;
    }
  }

  method RefuseQuote(ctx: RunContext, ports: Ports, q: Quote, tx: Transaction, ghost dry: bool, ghost attempt: nat)
    requires AtLoop(ctx, q, tx, dry, attempt) && Fits(ctx, ports, q, tx) && SettleQuoteProblem(q, ctx.c.settings)
    modifies ctx, ctx.w
    ensures Gone(ctx, ports, false) && ctx.run.state == Failed
  {
    ctx.Die(Fail(AmountInvalid, "quote cannot be settled as it is"));
  }

  lemma VerifyingIsAllowed(cfg: Config, p: Process)
    requires p.claimed && p.stage.Gated? && p.run.state in {Opened, Funded, Retrying}
    ensures MayWrite(cfg, p, Step(p.run, Verifying))
  {
  }

  lemma RetryingIsAllowed(cfg: Config, p: Process)
    requires p.claimed && p.run.state == Settling && p.stage == Stage.Refused(true)
    requires p.attempt < p.c.settings.maxRetries
    ensures MayWrite(cfg, p, Step(p.run, Retrying))
  {
  }

  lemma SettledIsAllowed(cfg: Config, p: Process)
    requires p.run.state == Settling && p.stage.Holding? && !Stranger(p)
    ensures MayWrite(cfg, p, Step(RecordSettlement(p.run, p.stage.held, p.stage.ref), Settled))
  {
  }

  /** Ask the gate about the quote and note on the row that it was asked. */
  method AskGate(ctx: RunContext, q: Quote, tx: Transaction, ghost dry: bool, ghost attempt: nat)
    returns (passed: bool)
    requires AtLoop(ctx, q, tx, dry, attempt) && !SettleQuoteProblem(q, ctx.c.settings)
    modifies ctx, ctx.w
    ensures Judged(ctx, q, tx, dry, attempt, passed, None) && ctx.w.smooth == (old(ctx.w.smooth) && passed)
  {
    passed := ctx.w.Evaluate(q);
    EnterVerifying(ctx, q, tx, dry, attempt, passed);
  }

  method EnterVerifying(ctx: RunContext, q: Quote, tx: Transaction, ghost dry: bool, ghost attempt: nat,
                        ghost passed: bool)
    requires Early(ctx, dry, attempt) && Carries(ctx.run, q, tx) && Drawn(ctx.Me())
    requires ctx.run.state in {Opened, Funded, Retrying} && ctx.Me().stage == Gated(passed, None)
    modifies ctx, ctx.w
    ensures Judged(ctx, q, tx, dry, attempt, passed, None) && ctx.w.smooth == old(ctx.w.smooth)
  {
    VerifyingIsAllowed(ctx.w.cfg, ctx.Me());
    var verifying := ctx.Advance(Verifying);
    assert verifying;
  }

  /** The gate answered, and the clock has been read since if `at` says so. */
  ghost predicate Judged(ctx: RunContext, q: Quote, tx: Transaction, dry: bool, attempt: nat,
                         passed: bool, at: Option<int>)
    reads ctx, ctx.w
  {
    && Early(ctx, dry, attempt) && Carries(ctx.run, q, tx) && Drawn(ctx.Me()) && ctx.run.state == Verifying
    && ctx.Me().stage == Gated(passed, at)
  }

  /** The gate, the end of a dry run, and one more look at the quote's deadline. */
  method PassGate(ctx: RunContext, ports: Ports, q: Quote, tx: Transaction, dry: bool,
                  ghost attempt: nat) returns (ok: bool)
    requires AtLoop(ctx, q, tx, dry, attempt) && !SettleQuoteProblem(q, ctx.c.settings)
    modifies ctx, ctx.w
    ensures !ok ==> Gone(ctx, ports, dry)
    ensures ok ==> !dry && MayEnterSettling(ctx, q, tx, attempt)
  {
    var code := ports.GateCode();
    var passed := AskGate(ctx, q, tx, dry, attempt);
    if passed && !dry {
      ok := StillBinds(ctx, q, tx, attempt);
    } else {
      StopAtGate(ctx, ports, q, tx, code, passed, dry, attempt);
      ok := false;
    }
  }

  /** The gate said no, or the run was to go no further. */
  method StopAtGate(ctx: RunContext, ports: Ports, q: Quote, tx: Transaction, code: Code, passed: bool, dry: bool,
                    ghost attempt: nat)
    requires Judged(ctx, q, tx, dry, attempt, passed, None)
    requires if passed then dry else !ctx.w.smooth
    modifies ctx, ctx.w
    ensures Gone(ctx, ports, dry)
  {
    if !passed {
      HoldOrDie(ctx, Fail(code, "pre-settle check failed"), dry, attempt);
    } else {
      ctx.Die(Fail(DryRunComplete, "dry run stopped before settling"));
    }
  }

  /** Waiting for the gate can outlast a firm quote: look at the clock once more. */
  method StillBinds(ctx: RunContext, q: Quote, tx: Transaction, ghost attempt: nat) returns (ok: bool)
    requires Judged(ctx, q, tx, false, attempt, true, None)
    modifies ctx, ctx.w
    ensures !ok ==> Ended(ctx, false) && !ctx.w.smooth
    ensures ok ==> MayEnterSettling(ctx, q, tx, attempt)
  {
    ok := true;
    if q.firm {
      var at := ctx.w.ReadClock(q.expiresAt);
      if Expired(q.firm, q.expiresAt, at) {
        HoldOrFinish(ctx, Fail(QuoteExpired, "quote expired before settlement"), false, attempt);
        ok := false;
      }
    }
  }

  ghost predicate MayEnterSettling(ctx: RunContext, q: Quote, tx: Transaction, attempt: nat)
    reads ctx, ctx.w
  {
    && Early(ctx, false, attempt) && Carries(ctx.run, q, tx) && Drawn(ctx.Me()) && ctx.run.state == Verifying
    && ctx.Me().stage.Gated? && ctx.Me().stage.passed && QuoteBinds(ctx.run, ctx.Me().stage.at)
  }

  /** `settling` is on the row; the settle call has not been answered. */
  ghost predicate InSettling(ctx: RunContext, q: Quote, tx: Transaction, attempt: nat)
    reads ctx, ctx.w
  {
    Early(ctx, false, attempt) && Carries(ctx.run, q, tx) && Drawn(ctx.Me()) && ctx.run.state == Settling
  }

  /** `InSettling`, with or without a reference in hand. */
  ghost predicate SettledSoFar(ctx: RunContext, q: Quote, tx: Transaction, attempt: nat)
    reads ctx, ctx.w
  {
    && ctx.Synced() && ctx.Me().claimed && ctx.Me().entered == Created
    && !ctx.Me().dry && ctx.Me().attempt == attempt
    && !ctx.Me().asked && !ctx.Me().judged && !HasSettlementRef(ctx.run)
    && Carries(ctx.run, q, tx) && Drawn(ctx.Me()) && ctx.run.state == Settling
  }

  /** What a settle call came back with. */
  ghost predicate Answered(ctx: RunContext, q: Quote, tx: Transaction, attempt: nat, s: Answer<Ref>)
    reads ctx, ctx.w
  {
    && SettledSoFar(ctx, q, tx, attempt)
    && match s
       case Ok(ref) => ctx.Me().stage == Holding(RequestOf(ctx.run, ctx.c.settings), ref)
       case Err(error) =>
         !ctx.Me().stage.Holding? && (error.retryable ==> ctx.Me().stage == Stage.Refused(true))
  }

  /** `settle` with the default strategies: the one for the instructions' kind that takes the
      corridor, or a refusal that moves nothing. */
  method Settle(ctx: RunContext, ports: Ports, q: Quote, tx: Transaction, ghost attempt: nat)
    returns (s: Answer<Ref>)
    requires InSettling(ctx, q, tx, attempt) && Fits(ctx, ports, q, tx)
    requires if tx.instructions.StellarPayment? && ctx.w.cfg.canFind
             then ctx.Me().stage.Clear? && ctx.Me().stage.req == RequestOf(ctx.run, ctx.c.settings)
             else ctx.Me().stage == Armed
    modifies ctx.w
    ensures Answered(ctx, q, tx, attempt, s) && (s.Err? ==> !Well(ctx, ports))
  {
    var req := BuildRequest(q, tx, ctx.c.settings);
    BuiltAsRecorded(ctx.run, q, tx, ctx.c.settings);
    if SettleQuoteProblem(q, ctx.c.settings) {
      s := Err(Fail(AmountInvalid, "quote cannot be settled as it is"));
    } else if tx.instructions.StellarPayment? && !NeedsPathPayment(ctx.c.settings) {
      s := ctx.w.SubmitPayment(req);
    } else if tx.instructions.AdapterSettled? {
      s := ctx.w.ConfirmSettlement();
    } else {
      s := Err(Fail(SettlementFailed, "no settlement strategy takes this transaction"));
    }
  }

  method LookForPayment(ctx: RunContext, q: Quote, tx: Transaction, ghost attempt: nat)
    returns (found: Answer<Option<Ref>>)
    requires InSettling(ctx, q, tx, attempt) && ctx.Me().stage == Armed && ctx.w.cfg.canFind
    modifies ctx.w
    ensures found.Err? ==> InSettling(ctx, q, tx, attempt) && ctx.Me().stage == Armed && !ctx.w.smooth
    ensures found.Ok? && found.value.Some? ==> Answered(ctx, q, tx, attempt, Ok(found.value.value))
    ensures found == Ok(None) ==>
              InSettling(ctx, q, tx, attempt) && ctx.Me().stage == Clear(RequestOf(ctx.run, ctx.c.settings), None)
    ensures found.Ok? ==> ctx.w.smooth == old(ctx.w.smooth)
  {
    var req := BuildRequest(q, tx, ctx.c.settings);
    BuiltAsRecorded(ctx.run, q, tx, ctx.c.settings);
    found := ctx.w.FindExisting(req);
  }

  /** Look for an existing payment where that is possible, and settle when there is none.
      None: the look-up failed, and the run ended. */
  method TrySettle(ctx: RunContext, ports: Ports, q: Quote, tx: Transaction, ghost attempt: nat)
    returns (r: Option<Answer<Ref>>)
    requires InSettling(ctx, q, tx, attempt) && ctx.Me().stage == Armed && Fits(ctx, ports, q, tx)
    modifies ctx, ctx.w
    ensures r.None? ==> Gone(ctx, ports, false)
    ensures r.Some? ==> Answered(ctx, q, tx, attempt, r.value) && (r.value.Err? ==> !Well(ctx, ports))
  {
    if ctx.w.cfg.canFind && tx.instructions.StellarPayment? {
      var found := LookForPayment(ctx, q, tx, attempt);
      if found.Err? {
        ctx.FinishFailure(found.error);
        return None;
      }
      if found.value.Some? { return Some(Ok(found.value.value)); }
    }
    var s := Settle(ctx, ports, q, tx, attempt);
    r := Some(s);
  }

  /** The run settled what this transaction and this quote asked for, checked on the chain if asked. */
  predicate SettledAs(run: Run, q: Quote, tx: Transaction, s: Settings, chainVerifier: bool, verified: bool) {
    && Carries(run, q, tx) && run.settlementRef.Some? && run.settlement.Some?
    && (var r := run.settlement.value;
        && (tx.depositAddress == Some(r.to) || (tx.depositAddress.None? && r.to == ""))
        && r.memo == tx.memo && r.memoType == tx.memoType && r.asset == s.asset && r.amount == q.amount)
    && (match run.settlementRef.value
        case Stellar(hash) => run.settlementKind == Some(OnStellar) && run.stellarTxHash == Some(hash)
        case Adapter(_) => run.settlementKind == Some(OffChain))
    && (s.prefunded || Given(run.sourceTransactionId))
    && (chainVerifier && run.settlementRef.value.Stellar? ==> verified)
  }

  /** Write the settlement down, check it on the chain, and wait for the anchor's word. */
  method FinishSettlement(ctx: RunContext, ports: Ports, q: Quote, tx: Transaction, ref: Ref,
                          chainVerifier: bool, ghost attempt: nat) returns (ok: bool)
    requires Answered(ctx, q, tx, attempt, Ok(ref))
    modifies ctx, ctx.w, ports
    ensures OnlyVerified(old(ports.seen), ports.seen)
    ensures !ok ==> Gone(ctx, ports, false)
    ensures ok ==> Ended(ctx, true)
                   && SettledAs(ctx.run, q, tx, ctx.c.settings, chainVerifier, ports.seen.verified == Some(true))
  {
    ok := true;
    RecordRef(ctx, q, tx, ref, attempt);
    if chainVerifier && ref.Stellar? { ok := VerifySettled(ctx, ports); }
    if ok { ok := ReconcileAndComplete(ctx); }
  }

  /** Ask the chain about the settlement; its no ends the run as the manifest says. */
  method VerifySettled(ctx: RunContext, ports: Ports) returns (ok: bool)
    requires MayReconcile(ctx)
    modifies ctx, ctx.w, ports
    ensures OnlyVerified(old(ports.seen), ports.seen) && ports.seen.verified == Some(ok)
    ensures ok ==> MayReconcile(ctx) && ctx.run == old(ctx.run)
    ensures !ok ==>
              && Gone(ctx, ports, false)
              && ctx.run.state in (match ctx.c.settings.rollback
                                   case RefundSender => {Refunded, Held}
                                   case Hold => {Held}
                                   case Manual => {Failed})
  {
    var problem := ports.VerifyOnChain();
    ok := problem.None?;
    if problem.Some? { ctx.FinishFailure(problem.value.(retryable := false)); }
  }

  method RecordRef(ctx: RunContext, q: Quote, tx: Transaction, ref: Ref, ghost attempt: nat)
    requires Answered(ctx, q, tx, attempt, Ok(ref))
    modifies ctx, ctx.w
    ensures MayReconcile(ctx) && ctx.run.settlementRef == Some(ref)
    ensures SettledAs(ctx.run, q, tx, ctx.c.settings, false, false)
  {
    BuiltAsRecorded(ctx.run, q, tx, ctx.c.settings);
    SettledIsAllowed(ctx.w.cfg, ctx.Me());
    ctx.run := RecordSettlement(ctx.run, BuildRequest(q, tx, ctx.c.settings), ref);
    var settled := ctx.Advance(Settled);
    assert settled;
  }

  /** A process whose run is `settled` and that may carry it to its end. */
  ghost predicate MayReconcile(ctx: RunContext)
    reads ctx, ctx.w
  {
    ctx.MayRefundNow() && ctx.run.state == Settled && ctx.Me().stage == Idle
  }

  /** The anchor's word decides: settled completes the run, anything else ends it as the manifest says. */
  method ReconcileAndComplete(ctx: RunContext) returns (ok: bool)
    requires MayReconcile(ctx)
    modifies ctx, ctx.w
    ensures !ok ==> Ended(ctx, false) && !ctx.w.smooth
    ensures ok ==> Ended(ctx, true) && ctx.w.smooth == old(ctx.w.smooth)
                   && ctx.run == old(ctx.run).(state := Completed, version := ctx.run.version)
  {
    var problem := ctx.w.Reconciled();
    if problem.Some? {
      ctx.FinishFailure(problem.value);
      return false;
    }
    var reconciled := ctx.Advance(Reconciled);
    assert reconciled;
    Complete(ctx);
    ok := true;
  }

  method Complete(ctx: RunContext)
    requires ctx.Synced() && ctx.run.state == Reconciled && ctx.Me().stage == Idle && !ctx.Me().judged
    requires !Stranger(ctx.Me())
    modifies ctx, ctx.w
    ensures Ended(ctx, true) && ctx.run == old(Step(ctx.run, Completed)) && ctx.w.smooth == old(ctx.w.smooth)
    ensures ctx.w.Books() == (old(ctx.w.Books()).0, old(ctx.w.Books()).1 + Told(ctx.w.cfg, Completed, None))
  {
    var completed := ctx.Advance(Completed);
    assert completed;
    ctx.RecordOutcome(None);
  }

  datatype Pass = Again | Over(completed: bool)

  /** Back off before another pass, or give up: `recover`. */
  method Recover(ctx: RunContext, ports: Ports, q: Quote, tx: Transaction, error: Error, attempt: nat)
    returns (next: Pass)
    requires Answered(ctx, q, tx, attempt, Err(error)) && !Well(ctx, ports)
    modifies ctx, ctx.w
    ensures next.Again? <==> error.retryable && attempt < ctx.c.settings.maxRetries
    ensures next.Again? ==> AtLoop(ctx, q, tx, false, attempt + 1) && !Well(ctx, ports)
    ensures next.Over? ==> !next.completed && Gone(ctx, ports, false)
    ensures next.Over? ==> ctx.run.state == (match ctx.c.settings.rollback
                                             case RefundSender => Refunded
                                             case Hold => Held
                                             case Manual => Failed)
                           && ctx.w.Books().0 == old(ctx.w.Books()).0
  {
    if error.retryable && attempt < ctx.c.settings.maxRetries {
      BackOff(ctx, q, tx, attempt);
      next := Again;
    } else {
      ctx.FinishFailure(error);
      next := Over(false);
    }
  }

  method BackOff(ctx: RunContext, q: Quote, tx: Transaction, attempt: nat)
    requires SettledSoFar(ctx, q, tx, attempt) && ctx.Me().stage == Stage.Refused(true)
    requires attempt < ctx.c.settings.maxRetries
    modifies ctx, ctx.w
    ensures AtLoop(ctx, q, tx, false, attempt + 1) && ctx.w.smooth == old(ctx.w.smooth)
  {
    RetryingIsAllowed(ctx.w.cfg, ctx.Me());
    var retrying := ctx.Advance(Retrying);
    assert retrying;
    ctx.w.Sleep(attempt + 1);
  }

  /** How a pass, and the loop, can come out. */
  ghost predicate CameOut(ctx: RunContext, ports: Ports, q: Quote, tx: Transaction, chainVerifier: bool,
                          dry: bool, completed: bool)
    reads ctx, ctx.w, ports
  {
    if completed then
      && Ended(ctx, true) && !dry
      && SettledAs(ctx.run, q, tx, ctx.c.settings, chainVerifier, ports.seen.verified == Some(true))
    else Gone(ctx, ports, dry)
  }

  /** One pass of the settlement loop. */
  method SettlePass(ctx: RunContext, ports: Ports, q: Quote, tx: Transaction, deadline: int,
                    chainVerifier: bool, dry: bool, attempt: nat) returns (next: Pass)
    requires AtLoop(ctx, q, tx, dry, attempt) && Fits(ctx, ports, q, tx)
    modifies ctx, ctx.w, ports
    ensures OnlyVerified(old(ports.seen), ports.seen)
    ensures next.Again? ==> AtLoop(ctx, q, tx, dry, attempt + 1) && attempt < ctx.c.settings.maxRetries
    ensures next.Over? ==> CameOut(ctx, ports, q, tx, chainVerifier, dry, next.completed)
  {
    var ok := CheckPass(ctx, ports, q, tx, deadline, dry, attempt);
    if ok { ok := PassGate(ctx, ports, q, tx, dry, attempt); }
    if ok {
      next := SettleOnce(ctx, ports, q, tx, chainVerifier, attempt);
    } else {
      next := Over(false);
    }
  }

  method SettleOnce(ctx: RunContext, ports: Ports, q: Quote, tx: Transaction, chainVerifier: bool, attempt: nat)
    returns (next: Pass)
    requires MayEnterSettling(ctx, q, tx, attempt) && Fits(ctx, ports, q, tx)
    modifies ctx, ctx.w, ports
    ensures OnlyVerified(old(ports.seen), ports.seen)
    ensures next.Again? ==> AtLoop(ctx, q, tx, false, attempt + 1) && attempt < ctx.c.settings.maxRetries
    ensures next.Over? ==> CameOut(ctx, ports, q, tx, chainVerifier, false, next.completed)
  {
    EnterSettling(ctx, q, tx, attempt);
    var s := TrySettle(ctx, ports, q, tx, attempt);
    if s.Some? {
      next := FinishPass(ctx, ports, q, tx, s.value, chainVerifier, attempt);
    } else {
      next := Over(false);
    }
  }

  method EnterSettling(ctx: RunContext, q: Quote, tx: Transaction, ghost attempt: nat)
    requires MayEnterSettling(ctx, q, tx, attempt)
    modifies ctx, ctx.w
    ensures InSettling(ctx, q, tx, attempt) && ctx.Me().stage == Armed
  {
    var settling := ctx.Advance(Settling);
    assert settling;
  }

  method FinishPass(ctx: RunContext, ports: Ports, q: Quote, tx: Transaction, s: Answer<Ref>,
                    chainVerifier: bool, attempt: nat) returns (next: Pass)
    requires Answered(ctx, q, tx, attempt, s) && (s.Err? ==> !Well(ctx, ports))
    modifies ctx, ctx.w, ports
    ensures OnlyVerified(old(ports.seen), ports.seen)
    ensures next.Again? ==> AtLoop(ctx, q, tx, false, attempt + 1) && attempt < ctx.c.settings.maxRetries
    ensures next.Over? ==> CameOut(ctx, ports, q, tx, chainVerifier, false, next.completed)
  {
    match s
    case Err(error) =>
      next := Recover(ctx, ports, q, tx, error, attempt);
    case Ok(ref) =>
      var ok := FinishSettlement(ctx, ports, q, tx, ref, chainVerifier, attempt);
      next := Over(ok);
  }

  /** Settle and reconcile, with retries: at most `max_retries` of them. */
  method SettleLoop(ctx: RunContext, ports: Ports, q: Quote, tx: Transaction, chainVerifier: bool, dry: bool)
    returns (completed: bool)
    requires AtLoop(ctx, q, tx, dry, 0) && Fits(ctx, ports, q, tx)
    modifies ctx, ctx.w, ports
    ensures OnlyVerified(old(ports.seen), ports.seen)
    ensures CameOut(ctx, ports, q, tx, chainVerifier, dry, completed)
  {
    var deadline := ports.Deadline();
    var attempt := 0;
    var pass := Again;
    while pass.Again?
      invariant attempt <= ctx.c.settings.maxRetries && OnlyVerified(old(ports.seen), ports.seen)
      invariant pass.Again? ==> AtLoop(ctx, q, tx, dry, attempt)
      invariant pass.Over? ==> CameOut(ctx, ports, q, tx, chainVerifier, dry, pass.completed)
      decreases pass.Again?, ctx.c.settings.maxRetries - attempt
    {
      pass := SettlePass(ctx, ports, q, tx, deadline, chainVerifier, dry, attempt);
      if pass.Again? { attempt := attempt + 1; }
    }
    completed := pass.completed;
  }

  // ----- The whole run -----------------------------------------------------------------------------

  /** What a completed run has behind it: a fitting route, a cleared customer, the drawn deposit,
      and a settlement of exactly the quoted amount to exactly the opened transaction. */
  predicate Earned(run: Run, s: Settings, seen: Dealings, deps: Deps, opts: Options) {
    && seen.route.Some? && ConfigProblem(s, seen.route.value, deps, opts).None?
    && (seen.route.value.kycNone || seen.complied) && (s.prefunded || seen.deposited)
    && seen.quote.Some? && seen.transaction.Some? && !opts.dryRun
    && SettledAs(run, seen.quote.value, seen.transaction.value, s, deps.chainVerifier, seen.verified == Some(true))
  }

  /** A claimed run from its route to its end. It completes only with everything behind it, and
      when it does not complete, some answer was not the one hoped for or it was a dry run. */
  method FreshRun(ctx: RunContext, ports: Ports, deps: Deps, opts: Options) returns (completed: bool)
    requires EarlyAt(ctx, opts.dryRun, Created) && ctx.run.sourceTransactionId.None?
    modifies ctx, ctx.w, ports
    ensures completed ==> Ended(ctx, true) && Earned(ctx.run, ctx.c.settings, ports.seen, deps, opts)
    ensures !completed ==> Gone(ctx, ports, opts.dryRun)
  {
    completed := false;
    ghost var s := ctx.c.settings;
    var route := ports.Resolve(r => Suits(s, r, deps, opts));
    if route.None? {
      ctx.Die(Fail(RouteRefused, "route resolver refused the corridor"));
      return;
    }
    var problem := ConfigProblem(ctx.c.settings, route.value, deps, opts);
    if problem.Some? { ctx.Die(problem.value); return; }
    completed := QuoteAndSettle(ctx, ports, route.value, deps.chainVerifier, opts.dryRun);
  }

  /** The dealings behind a run once its route is known. */
  predicate Delivered(run: Run, s: Settings, seen: Dealings, kycNone: bool, chainVerifier: bool) {
    && (kycNone || seen.complied) && (s.prefunded || seen.deposited)
    && seen.quote.Some? && seen.transaction.Some?
    && SettledAs(run, seen.quote.value, seen.transaction.value, s, chainVerifier, seen.verified == Some(true))
  }

  method QuoteAndSettle(ctx: RunContext, ports: Ports, route: Route, chainVerifier: bool, dry: bool)
    returns (completed: bool)
    requires EarlyAt(ctx, dry, Created) && ctx.run.sourceTransactionId.None?
    requires ports.seen.smooth ==> ctx.c.settings.prefunded || route.hasSending
    modifies ctx, ctx.w, ports
    ensures completed ==> Ended(ctx, true) && !dry && ports.seen.route == old(ports.seen).route
                          && Delivered(ctx.run, ctx.c.settings, ports.seen, route.kycNone, chainVerifier)
    ensures !completed ==> Gone(ctx, ports, dry)
  {
    var q := QuoteRun(ctx, ports, dry);
    if q.Some? {
      completed := OpenAndSettle(ctx, ports, q.value, route, chainVerifier, dry);
    } else {
      completed := false;
    }
  }

  method OpenAndSettle(ctx: RunContext, ports: Ports, q: Quote, route: Route, chainVerifier: bool, dry: bool)
    returns (completed: bool)
    requires EarlyAt(ctx, dry, Quoted) && CarriesQuote(ctx.run, q) && ctx.run.sourceTransactionId.None?
    requires ports.seen.quote == Some(q)
    requires ports.seen.smooth ==>
               && !SettleQuoteProblem(q, ctx.c.settings)
               && (ctx.c.settings.prefunded || route.hasSending)
    modifies ctx, ctx.w, ports
    ensures completed ==> Ended(ctx, true) && !dry && ports.seen.route == old(ports.seen).route
                          && Delivered(ctx.run, ctx.c.settings, ports.seen, route.kycNone, chainVerifier)
    ensures !completed ==> Gone(ctx, ports, dry)
  {
    completed := false;
    var ok := ComplyRun(ctx, ports, route.kycNone, dry);
    if ok {
      var tx := OpenRun(ctx, ports, dry);
      if tx.Some? {
        completed := FundAndSettle(ctx, ports, q, tx.value, route.hasSending, chainVerifier, dry);
      }
    }
  }

  method FundAndSettle(ctx: RunContext, ports: Ports, q: Quote, tx: Transaction, hasSending: bool,
                       chainVerifier: bool, dry: bool) returns (completed: bool)
    requires EarlyAt(ctx, dry, Opened) && Carries(ctx.run, q, tx) && ctx.run.sourceTransactionId.None?
    requires Fits(ctx, ports, q, tx) && (ports.seen.smooth ==> ctx.c.settings.prefunded || hasSending)
    modifies ctx, ctx.w, ports
    ensures completed ==>
              && CameOut(ctx, ports, q, tx, chainVerifier, dry, true)
              && (ctx.c.settings.prefunded || ports.seen.deposited)
              && ports.seen == old(ports.seen).(depositId := ports.seen.depositId, deposited := ports.seen.deposited,
                                                verified := ports.seen.verified, smooth := ports.seen.smooth)
    ensures !completed ==> Gone(ctx, ports, dry)
  {
    completed := FundIfDrawn(ctx, ports, q, tx, hasSending, dry);
    if completed { completed := SettleLoop(ctx, ports, q, tx, chainVerifier, dry); }
  }

  /** Draw the payment where the corridor draws one; a dry run stops before it. */
  method FundIfDrawn(ctx: RunContext, ports: Ports, q: Quote, tx: Transaction, hasSending: bool, dry: bool)
    returns (ok: bool)
    requires EarlyAt(ctx, dry, Opened) && Carries(ctx.run, q, tx) && ctx.run.sourceTransactionId.None?
    requires ports.seen.smooth ==> ctx.c.settings.prefunded || hasSending
    modifies ctx, ctx.w, ports
    ensures ok ==> AtLoop(ctx, q, tx, dry, 0) && OnlyDrew(old(ports.seen), ports.seen)
    ensures ok ==> ctx.c.settings.prefunded || ports.seen.deposited
    ensures !ok ==> Gone(ctx, ports, dry)
  {
    if ctx.c.settings.prefunded {
      ok := true;
    } else if dry {
      ctx.Die(Fail(DryRunComplete, "dry run stopped before source funding"));
      ok := false;
    } else {
      ok := FundRun(ctx, ports, hasSending, q, tx);
    }
  }
}
