/**
 * `execute` of packages/engine/src/run.ts: one call for one key, against a world that records
 * what is done.
 */
module Engine {
  import opened Prelude
  import opened States
  import opened Runs
  import opened Stores
  import opened Protocol
  import opened OneWorker
  import opened Outside
  import opened RunContexts
  import opened FreshRuns
  import opened ResumedRuns

  datatype Liveness = Proven | Verified | Unverified | NotRunnable

  /** `Unfinished`: the caller is told why a run of its own, new or resumed, did not complete. */
  datatype Reply = Finished(run: Run) | Unfinished(run: Run) | Declined(error: Error)

  // ----- Refusals before anything is claimed ---------------------------------------------

  /** The ceiling on an unproven corridor: the smaller of the canary cap and the corridor's own. */
  function EffectiveCap(s: Settings, deps: Deps): int {
    var canary := if s.canaryMaxAmount.Some? then s.canaryMaxAmount.value else deps.unprovenMaxAmount;
    if s.maxAmount.Some? && s.maxAmount.value <= canary then s.maxAmount.value else canary
  }

  function Refusal(amount: int, s: Settings, gate: bool, deps: Deps, live: Liveness): (r: Option<Error>)
    ensures r.None? <==>
            && (gate || deps.unsafeSkipGate) && amount > 0
            && (s.minAmount.Some? ==> s.minAmount.value <= amount)
            && (s.maxAmount.Some? ==> amount <= s.maxAmount.value)
            && (!live.Proven? ==>
                  amount <= if s.canaryMaxAmount.Some? then s.canaryMaxAmount.value else deps.unprovenMaxAmount)
            && (s.publicNetwork ==> live.Proven? || live.Verified?)
    ensures r.Some? && r.value.code == EngineMisconfigured <==> !gate && !deps.unsafeSkipGate
    ensures r.Some? && r.value.code == AmountInvalid <==>
              && (gate || deps.unsafeSkipGate)
              && (amount <= 0
                  || ((s.publicNetwork ==> live.Proven? || live.Verified?)
                      && ((s.minAmount.Some? && amount < s.minAmount.value)
                          || (s.maxAmount.Some? && s.maxAmount.value < amount))))
    ensures r.Some? ==> r.value.code in {EngineMisconfigured, AmountInvalid, CorridorUnproven}
  {
    if !gate && !deps.unsafeSkipGate then Some(Fail(EngineMisconfigured, "pre-settle gate is required"))
    else if amount <= 0 then Some(Fail(AmountInvalid, "not a positive amount"))
    else if s.publicNetwork && (live.Unverified? || live.NotRunnable?) then
      Some(Fail(CorridorUnproven, "cannot accept payments on the public network"))
    else if s.minAmount.Some? && amount < s.minAmount.value then Some(Fail(AmountInvalid, "below min_amount"))
    else if s.maxAmount.Some? && amount > s.maxAmount.value then Some(Fail(AmountInvalid, "exceeds max_amount"))
    else if !live.Proven? && amount > EffectiveCap(s, deps) then
      Some(Fail(CorridorUnproven, "exceeds the unproven cap"))
    else None
  }

  // ----- One call ------------------------------------------------------------------------------------

  /** What a world says about itself holds of the history behind it. */
  lemma WorldIsSafe(w: World)
    requires w.Valid()
    ensures After(w.cfg, w.trace) == Some(w.sys) && Inv(w.cfg, w.sys)
  {
    PossibleHappens(w.cfg, w.states, w.trace, w.sys);
    InvHolds(w.cfg, w.trace);
  }

  /** Wherever a world's processes stopped, one after the other, its money was safe. */
  lemma SafeAtEveryMoment(w: World, k: nat)
    requires w.Valid() && k <= |w.trace|
    ensures After(w.cfg, w.trace[..k]).Some?
    ensures var sh := After(w.cfg, w.trace[..k]).value.sh;
            && (CanTell(w.cfg) ==> |sh.paid| + |sh.inflight| <= 1)
            && sh.accepted <= 1 && |sh.refunds| <= 1 && |sh.outcomes| <= 1
  {
    WorldIsSafe(w);
    MayStopAnywhere(w.cfg, w.trace, k);
    InvHolds(w.cfg, w.trace[..k]);
  }

  /** The call claims the key: nothing refuses it and no row is there. */
  predicate Claims(w: World, amount: int, s: Settings, deps: Deps, live: Liveness, laneOpen: bool)
    reads w
  {
    w.row.None? && Refusal(amount, s, w.cfg.gate, deps, live).None? && !(w.cfg.health && laneOpen)
  }

  /** What a call owes the row it finds unfinished: it is not refused; a run whose payment is
      recorded or can be found completes, and a recovery ends refunded, if every answer is as hoped
      for; and a recovery asks for no refund. It completes only on the chain's yes where the chain can
      be asked, is parked on its no, and the payment it completes on is the one its row asks for. */
  ghost predicate Picked(cfg: Config, run: Run, c: Corridor, deps: Deps, paid: seq<Payment>,
                         w: World, ports: Ports, reply: Reply, refunds: seq<RefundCall>)
    reads w, ports
  {
    && (!IsTerminal(run.state) ==> !reply.Declined? && w.row.Some?)
    && (OnlyWaits(cfg, run, c, paid) && w.smooth && ports.seen.smooth ==> reply.Finished?)
    && (OnlyRecovers(run, c) && w.smooth && ports.seen.smooth ==> w.row.Some? && w.row.value.state == Refunded)
    && (run.state in {Recovering, RefundPending} ==> w.Books().0 == refunds)
    && (!IsTerminal(run.state) && run.state != Reconciled ==>
          HeedsTheChain(w.row.value, deps.chainVerifier, ports.seen.verified))
    && (MayHavePaid(run.state) || run.state == Funding ==> PaidAsAsked(w.row.value, c.settings.asset))
  }

  method Execute(w: World, ports: Ports, amount: int, c: Corridor, deps: Deps, opts: Options,
                 live: Liveness, laneOpen: bool)
    returns (reply: Reply, trail: seq<State>, audit: seq<Entry>)
    requires w.Valid() && Parsed(w.cfg.schema, c)
    modifies w, ports
    ensures w.Valid() && old(w.trace) + [Boot(c, opts.dryRun)] <= w.trace
    // A refused call leaves no trace but its own start.
    ensures var refusal := Refusal(amount, c.settings, w.cfg.gate, deps, live);
            refusal.Some? ==>
              reply == Declined(refusal.value) && w.trace == old(w.trace) + [Boot(c, opts.dryRun)]
    // An open lane refuses a new key after one look at the row, and creates none.
    ensures old(w.row).None? && !old(Claims(w, amount, c.settings, deps, live, laneOpen)) ==>
              reply.Declined? && w.row.None?
              && (Refusal(amount, c.settings, w.cfg.gate, deps, live).None? ==> reply.error.code == CorridorHalted)
              && w.trace <= old(w.trace) + [Boot(c, opts.dryRun), Read(None)]
    // A claimed run never stays parked.
    ensures old(Claims(w, amount, c.settings, deps, live, laneOpen)) ==>
              && w.row.Some? && IsTerminal(w.row.value.state)
              && Story(trail, audit, Created, w.row.value.state, w.row.value.version)
              && reply == if w.row.value.state == Completed then Finished(w.row.value) else Unfinished(w.row.value)
    // It completes with everything behind it, and always does if every answer is as hoped for.
    ensures old(Claims(w, amount, c.settings, deps, live, laneOpen)) ==>
              && (reply.Finished? ==> Earned(reply.run, c.settings, ports.seen, deps, opts))
              && (w.smooth && ports.seen.smooth && !opts.dryRun ==> reply.Finished?)
    // A completed key answers with its run; any other finished one with a conflict.
    ensures old(w.row.Some? && IsTerminal(w.row.value.state))
            && Refusal(amount, c.settings, w.cfg.gate, deps, live).None? ==>
              w.row == old(w.row) && if old(w.row).value.state == Completed
                                     then reply == Finished(Load(w.cfg.store, old(w.row).value)) else reply.Declined?
    // An unfinished one is resumed, open lane or not.
    ensures Refusal(amount, c.settings, w.cfg.gate, deps, live).None? && old(w.row).Some? ==>
              Picked(w.cfg, old(Load(w.cfg.store, w.row.value)), c, deps, old(w.paid),
                     w, ports, reply, old(w.Books()).0)
    // Whatever a call goes on to do, its amount keeps every limit, the cap of a corridor that is not
    // proven among them.
    ensures !reply.Declined? ==>
              && amount > 0 && (w.cfg.gate || deps.unsafeSkipGate)
              && (c.settings.minAmount.Some? ==> c.settings.minAmount.value <= amount)
              && (c.settings.maxAmount.Some? ==> amount <= c.settings.maxAmount.value)
              && (!live.Proven? ==> amount <= if c.settings.canaryMaxAmount.Some? then c.settings.canaryMaxAmount.value
                                              else deps.unprovenMaxAmount)
              && (c.settings.publicNetwork ==> live.Proven? || live.Verified?)
    // Who is refused has had nothing asked of any resolver, adapter or submitter.
    ensures reply.Declined? ==> ports.calls == 0 && ports.seen == UNDEALT && w.row == old(w.row)
                                && w.Books() == old(w.Books()) && w.paid == old(w.paid)
    // Success is only ever reported for a completed run.
    ensures reply.Finished? ==> w.row.Some? && w.row.value.state == Completed == reply.run.state
  {
    w.Boot(c, opts.dryRun);
    ports.Open();
    var refusal := Refusal(amount, c.settings, w.cfg.gate, deps, live);
    if refusal.Some? { return Declined(refusal.value), [], []; }
    reply, trail, audit := Admit(w, ports, c, deps, opts, laneOpen);
  }

  /** A call that nothing refused: answer for the row, resume it, or claim the key. */
  method Admit(w: World, ports: Ports, c: Corridor, deps: Deps, opts: Options, laneOpen: bool)
    returns (reply: Reply, trail: seq<State>, audit: seq<Entry>)
    requires w.Valid() && Parsed(w.cfg.schema, c) && w.sys.lo == Booted(c, opts.dryRun)
    requires ports.seen.verified.None?
    modifies w, ports
    ensures w.Valid() && old(w.trace) <= w.trace
    ensures old(w.row).None? && w.cfg.health && laneOpen ==>
              && reply.Declined? && reply.error.code == CorridorHalted
              && w.row.None? && w.trace == old(w.trace) + [Read(None)]
    ensures old(w.row).None? && !(w.cfg.health && laneOpen) ==>
              && w.row.Some? && IsTerminal(w.row.value.state)
              && Story(trail, audit, Created, w.row.value.state, w.row.value.version)
              && reply == (if w.row.value.state == Completed then Finished(w.row.value) else Unfinished(w.row.value))
              && (reply.Finished? ==> Earned(reply.run, c.settings, ports.seen, deps, opts))
              && (w.smooth && ports.seen.smooth && !opts.dryRun ==> reply.Finished?)
    ensures old(w.row).Some? && IsTerminal(Load(w.cfg.store, old(w.row).value).state) ==>
              w.row == old(w.row) && if old(w.row).value.state == Completed
                                     then reply == Finished(Load(w.cfg.store, old(w.row).value)) else reply.Declined?
    ensures old(w.row).Some? ==>
              Picked(w.cfg, old(Load(w.cfg.store, w.row.value)), c, deps, old(w.paid),
                     w, ports, reply, old(w.Books()).0)
    ensures reply.Declined? ==> ports.calls == old(ports.calls) && ports.seen == old(ports.seen) && w.row == old(w.row)
                                && w.Books() == old(w.Books()) && w.paid == old(w.paid)
    ensures reply.Finished? ==> w.row.Some? && w.row.value.state == Completed == reply.run.state
  {
    trail, audit := [], [];
    var existing := w.Get();
    if existing.Some? {
      reply, trail, audit := Continue(w, ports, existing.value, c, deps, opts);
    } else if w.cfg.health && laneOpen {
      reply := Declined(Fail(CorridorHalted, "corridor is halted"));
    } else {
      reply, trail, audit := ClaimAndRun(w, ports, c, deps, opts);
    }
  }

  /** The key has a row: answer for it, or resume it. */
  method Continue(w: World, ports: Ports, run: Run, c: Corridor, deps: Deps, opts: Options)
    returns (reply: Reply, trail: seq<State>, audit: seq<Entry>)
    requires w.Valid() && Parsed(w.cfg.schema, c) && w.row.Some? && run == Load(w.cfg.store, w.row.value)
    requires w.sys.lo == if IsTerminal(run.state) then Off else Start(c, opts.dryRun, false, run)
    requires ports.seen.verified.None?
    modifies w, ports
    ensures w.Valid() && old(w.trace) <= w.trace && w.row.Some?
    ensures reply.Finished? ==> w.row.value.state == Completed == reply.run.state
    ensures IsTerminal(run.state) ==>
              && w.row == old(w.row)
              && if run.state == Completed then reply == Finished(run)
                 else reply.Declined? && reply.error.code == IdempotencyConflict
    ensures reply.Unfinished? ==> Story(trail, audit, run.state, reply.run.state, reply.run.version)
    ensures Picked(w.cfg, run, c, deps, old(w.paid), w, ports, reply, old(w.Books()).0)
    ensures reply.Declined? ==> ports.calls == old(ports.calls) && ports.seen == old(ports.seen) && w.row == old(w.row)
                                && w.Books() == old(w.Books()) && w.paid == old(w.paid)
  {
    WorldIsSafe(w);
    DecodingIsExact(w.row.value);
    trail, audit := [], [];
    if run.state == Completed { return Finished(run), [Completed], audit; }
    if IsTerminal(run.state) {
      return Declined(Fail(IdempotencyConflict, "already in flight")), trail, audit;
    }
    var ctx := new RunContext(w, c, run);
    var completed := Resume(ctx, ports, deps, opts);
    RowIsTheRun(ctx);
    reply := if completed then Finished(ctx.run) else Unfinished(ctx.run);
    trail, audit := ctx.trail, ctx.audit;
  }

  /** Claim the key and run it to its end. */
  method ClaimAndRun(w: World, ports: Ports, c: Corridor, deps: Deps, opts: Options)
    returns (reply: Reply, trail: seq<State>, audit: seq<Entry>)
    requires w.Valid() && Parsed(w.cfg.schema, c) && w.row.None? && w.sys.lo == Unclaimed(c, opts.dryRun)
    modifies w, ports
    ensures w.Valid() && old(w.trace) <= w.trace
    ensures w.row.Some? && IsTerminal(w.row.value.state)
    ensures Story(trail, audit, Created, w.row.value.state, w.row.value.version)
    ensures reply == if w.row.value.state == Completed then Finished(w.row.value) else Unfinished(w.row.value)
    ensures reply.Finished? ==> Earned(reply.run, c.settings, ports.seen, deps, opts)
    ensures w.smooth && ports.seen.smooth && !opts.dryRun ==> reply.Finished?
  {
    var ctx := StartRun(w, c, opts);
    var completed := FreshRun(ctx, ports, deps, opts);
    RowIsTheRun(ctx);
    reply := if completed then Finished(ctx.run) else Unfinished(ctx.run);
    trail, audit := ctx.trail, ctx.audit;
  }

  method StartRun(w: World, c: Corridor, opts: Options) returns (ctx: RunContext)
    requires w.Valid() && Parsed(w.cfg.schema, c) && w.row.None? && w.sys.lo == Unclaimed(c, opts.dryRun)
    modifies w
    ensures fresh(ctx) && ctx.w == w && ctx.c == c && ctx.first == Created && old(w.trace) <= ctx.before
    ensures EarlyAt(ctx, opts.dryRun, Created) && ctx.run.sourceTransactionId.None?
    ensures ctx.run.key == w.cfg.key && ctx.run.corridorId == c.settings.id && ctx.run.owner == opts.owner
    ensures ctx.run.manifestHash == Some(HashOf(c)) && ctx.run.version == 0
  {
    var hash := HashCorridor(c);
    var run := NewRun(w.cfg.key, c.settings.id, hash, opts.owner);
    var won := w.Create(run, c);
    assert won;
    ctx := new RunContext(w, c, run);
  }

  /** What a live process last wrote is what the row holds. */
  lemma RowIsTheRun(ctx: RunContext)
    requires ctx.Synced()
    ensures ctx.w.row == Some(ctx.run)
  {
    WorldIsSafe(ctx.w);
  }
}
