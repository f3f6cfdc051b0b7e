/**
 * What the engine promises about money, over every history of crashes and resumes by one
 * worker at a time.
 */
module Safety {
  import opened Prelude
  import opened States
  import opened Runs
  import opened Stores
  import opened Protocol
  import opened OneWorker

  // ----- Payments ------------------------------------------------------------------------

  lemma Holds(cfg: Config, history: seq<Event>, s: Sys)
    requires LeadsTo(cfg, history, s)
    ensures After(cfg, history) == Some(s) && Inv(cfg, s)
  {
    LeadingIsHappening(cfg, history, s);
    InvHolds(cfg, history);
  }

  /** Where a process can tell what became of the last submit, one key pays at most once: counting
      payments whose success was never reported, and those under way that may still land. Whatever is
      paid or under way goes where the row says, with its memo, for its amount, in the asset of the
      manifest the key was claimed under. */
  lemma AtMostOnePayment(cfg: Config, history: seq<Event>, s: Sys)
    requires LeadsTo(cfg, history, s) && CanTell(cfg)
    ensures |s.sh.paid| + |s.sh.inflight| <= 1
    ensures forall req | req in s.sh.inflight || exists p :: p in s.sh.paid && p.req == req ::
              && s.sh.row.Some? && s.sh.pinned.Some?
              && var row := s.sh.row.value;
                 && (row.depositAddress == Some(req.to) || (row.depositAddress.None? && req.to == ""))
                 && req.memo == row.memo && req.memoType == row.memoType
                 && row.settlementAmount == Some(req.amount) && req.asset == s.sh.pinned.value.settings.asset
  {
    Holds(cfg, history, s);
  }

  // ----- What is recorded as settled -----------------------------------------------------------

  /** What a row says was settled, and what a process holds the reference of, is what the row asks for. */
  ghost predicate Accounted(s: Sys) {
    s.sh.row.Some? && s.sh.pinned.Some? ==>
      var row, asset := s.sh.row.value, s.sh.pinned.value.settings.asset;
      && ((MayYetSettle(row.state) && row.state != Created) || row.state == Settling ==> row.settlementAmount.Some?)
      && (row.settlement.Some? ==> Asks(row.settlement.value, row, asset))
      && (s.lo.Live? && s.lo.p.stage.Holding? ==> Asks(s.lo.p.stage.held, row, asset))
  }

  lemma RecordsWhatItHolds(cfg: Config, p: Process, run: Run)
    requires MayWrite(cfg, p, run) && Shaped(p.run)
    ensures run.settlement == p.run.settlement || (p.stage.Holding? && run.settlement == Some(p.stage.held))
    ensures Unopened(p.run.state) ==> run.settlement.None? && !p.stage.Holding?
    ensures run.state == Quoted ==> run.settlementAmount.Some?
    ensures Unopened(p.run.state) && p.run.state != Created ==> run.settlementAmount == p.run.settlementAmount
    ensures AfterWrite(p, run).stage.Holding? ==> AfterWrite(p, run).stage == p.stage && !Unopened(p.run.state)
  {
  }

  lemma AccountedWrite(cfg: Config, s: Sys, run: Run)
    requires Rows(cfg, s) && Next(cfg, s, Write(run)).Some? && Accounted(s)
    ensures Accounted(Next(cfg, s, Write(run)).value)
  {
    var p := s.lo.p;
    WritesAreKept(cfg, p, run);
    RecordsWhatItHolds(cfg, p, run);
    WritesAreFactual(cfg, p, run);
  }

  /** A reference comes with the request it was made for. */
  lemma HoldsWhatItAskedFor(cfg: Config, s: Sys, e: Event)
    requires Rows(cfg, s) && Next(cfg, s, e).Some? && Accounted(s) && s.lo.Live? && !e.Write? && !e.Boot?
    requires Next(cfg, s, e).value.lo.p.stage.Holding? && s.lo.p.stage != Next(cfg, s, e).value.lo.p.stage
    ensures Asks(Next(cfg, s, e).value.lo.p.stage.held, s.sh.row.value, s.sh.pinned.value.settings.asset)
  {
    if !s.lo.p.claimed { SameHashSameSettings(cfg.schema, s.lo.p.c, s.sh.pinned.value); }
  }

  lemma AccountedStep(cfg: Config, s: Sys, e: Event)
    requires Rows(cfg, s) && Next(cfg, s, e).Some? && Accounted(s)
    ensures Accounted(Next(cfg, s, e).value)
  {
    if e.Write? {
      AccountedWrite(cfg, s, e.run);
    } else if s.lo.Live? && !e.Boot? {
      OnlyWritesMoveTheRow(cfg, s, e);
      var s' := Next(cfg, s, e).value;
      if s'.lo.p.stage.Holding? && s'.lo.p.stage != s.lo.p.stage { HoldsWhatItAskedFor(cfg, s, e); }
    }
  }

  lemma {:induction false} AccountedHolds(cfg: Config, history: seq<Event>)
    requires After(cfg, history).Some?
    ensures Accounted(After(cfg, history).value)
  {
    if history != [] {
      var n := |history| - 1;
      AccountedHolds(cfg, history[..n]);
      InvHolds(cfg, history[..n]);
      AccountedStep(cfg, After(cfg, history[..n]).value, history[n]);
    }
  }

  /** Whatever the row says was settled, paid by this process or found by a later one, is what the row
      asks for: where to, with which memo, how much, and the asset of the claim's manifest. */
  lemma SettledAsOwed(cfg: Config, history: seq<Event>, s: Sys)
    requires LeadsTo(cfg, history, s) && s.sh.row.Some? && s.sh.row.value.settlement.Some?
    ensures s.sh.pinned.Some?
    ensures var row, req := s.sh.row.value, s.sh.row.value.settlement.value;
            && (row.depositAddress == Some(req.to) || (row.depositAddress.None? && req.to == ""))
            && req.memo == row.memo && req.memoType == row.memoType
            && row.settlementAmount == Some(req.amount) && req.asset == s.sh.pinned.value.settings.asset
  {
    Holds(cfg, history, s);
    AccountedHolds(cfg, history);
  }

  /** The row is this key's, for the corridor and under the manifest it was claimed with. */
  ghost predicate Belongs(cfg: Config, s: Sys) {
    s.sh.row.Some? && s.sh.pinned.Some? ==>
      s.sh.row.value.key == cfg.key && s.sh.row.value.corridorId == s.sh.pinned.value.settings.id
  }

  lemma BelongsStep(cfg: Config, s: Sys, e: Event)
    requires Rows(cfg, s) && Next(cfg, s, e).Some? && Belongs(cfg, s)
    ensures Belongs(cfg, Next(cfg, s, e).value)
  {
    if e.Write? {
      WritesAreKept(cfg, s.lo.p, e.run);
    } else if s.lo.Live? && !e.Boot? {
      OnlyWritesMoveTheRow(cfg, s, e);
    }
  }

  lemma {:induction false} RowsBelong(cfg: Config, history: seq<Event>)
    requires After(cfg, history).Some?
    ensures Belongs(cfg, After(cfg, history).value)
  {
    if history != [] {
      var n := |history| - 1;
      RowsBelong(cfg, history[..n]);
      InvHolds(cfg, history[..n]);
      BelongsStep(cfg, After(cfg, history[..n]).value, history[n]);
    }
  }

  lemma RowIsOfItsClaim(cfg: Config, history: seq<Event>, s: Sys)
    requires LeadsTo(cfg, history, s) && s.sh.row.Some?
    ensures s.sh.pinned.Some? && s.sh.row.value.manifestHash == Some(HashOf(s.sh.pinned.value))
    ensures s.sh.row.value.key == cfg.key && s.sh.row.value.corridorId == s.sh.pinned.value.settings.id
  {
    Holds(cfg, history, s);
    RowsBelong(cfg, history);
  }

  /** At most one submit is ever answered with success, looking or not. */
  lemma AtMostOneSuccess(cfg: Config, history: seq<Event>, s: Sys)
    requires LeadsTo(cfg, history, s)
    ensures s.sh.accepted <= 1
  {
    Holds(cfg, history, s);
  }

  /** All processes together submit at most max_retries + 1 times and back off at most
      5000 ms per retry. */
  lemma RetriesAreBounded(cfg: Config, history: seq<Event>, s: Sys)
    requires LeadsTo(cfg, history, s)
    ensures s.sh.pinned.Some? ==>
              && |s.sh.paid| + |s.sh.inflight| <= s.sh.submits <= s.sh.pinned.value.settings.maxRetries + 1
              && s.sh.slept <= 5000 * s.sh.pinned.value.settings.maxRetries
    ensures s.sh.pinned.None? ==> s.sh.submits == 0
  {
    Holds(cfg, history, s);
    if s.sh.pinned.Some? {
      assert s.sh.slept <= 5000 * s.sh.retries <= 5000 * s.sh.pinned.value.settings.maxRetries;
    }
  }

  // ----- Refunds -----------------------------------------------------------------------------

  /** The chain is asked for a refund at most once, only for a payment that landed, and for
      exactly what was paid. */
  lemma AtMostOneRefund(cfg: Config, history: seq<Event>, s: Sys)
    requires LeadsTo(cfg, history, s)
    ensures |s.sh.refunds| <= 1
    ensures s.sh.refunds != [] ==>
              && s.sh.row.Some? && s.sh.row.value.settlementAmount == Some(s.sh.refunds[0].amount)
              && exists i :: 0 <= i < |s.sh.paid| && s.sh.paid[i].ref == s.sh.refunds[0].original
                             && s.sh.paid[i].req.amount == s.sh.refunds[0].amount
  {
    Holds(cfg, history, s);
    if s.sh.refunds != [] {
      var i :| 0 <= i < |s.sh.paid| && s.sh.paid[i].ref == s.sh.refunds[0].original;
      assert s.sh.paid[i].req == TheRequest(s.sh);
    }
  }

  /** The stored refund id is only ever written together with the end of the run, so what keeps
      a resumed process from asking again is the state it starts from, not the id. */
  lemma RefundIdOnlyAtTheEnd(cfg: Config, history: seq<Event>, s: Sys)
    requires LeadsTo(cfg, history, s)
    ensures s.sh.row.Some? && s.sh.row.value.refundId.Some? ==> IsTerminal(s.sh.row.value.state)
    ensures s.lo.Live? && !s.lo.p.claimed && !IsTerminal(s.lo.p.run.state) ==> !HasRequestedRefund(s.lo.p.run)
  {
    Holds(cfg, history, s);
  }

  // ----- The breaker -----------------------------------------------------------------------------

  /** One key tells the breaker at most one outcome, after its run has ended, and a success
      only for a completed one. */
  lemma AtMostOneOutcome(cfg: Config, history: seq<Event>, s: Sys)
    requires LeadsTo(cfg, history, s)
    ensures |s.sh.outcomes| <= 1
    ensures s.sh.outcomes != [] ==>
              && s.sh.row.Some? && IsTerminal(s.sh.row.value.state)
              && s.sh.outcomes[0] == (s.sh.row.value.state == Completed)
  {
    Holds(cfg, history, s);
  }

  // ----- Money that moved -----------------------------------------------------------------------------

  /** Every process ran under the manifest with this hash. */
  ghost predicate OneManifest(history: seq<Event>, hash: Canonical.Text) {
    forall i | 0 <= i < |history| && history[i].Boot? :: HashOf(history[i].c) == hash
  }

  ghost predicate Unrepinned(s: Sys, hash: Canonical.Text) {
    && (s.sh.pinned.Some? ==> HashOf(s.sh.pinned.value) == hash)
    && (s.lo.Booted? || s.lo.Unclaimed? ==> HashOf(s.lo.c) == hash)
    && (s.lo.Live? ==> HashOf(s.lo.p.c) == hash && !Repinned(s.lo.p))
  }

  /** Under a truthful submitter, money without a recorded settlement sits in `settling`, and the
      only process that may write either holds the reference or leaves the row alone; a changed
      manifest may fail the run there. */
  ghost predicate Recorded(cfg: Config, s: Sys, same: bool) {
    (Truthful(cfg) && s.sh.row.Some? && (s.sh.paid != [] || s.sh.inflight != [])
     && !HasSettlementRef(s.sh.row.value)) ==>
      if s.sh.row.value.state == Settling then
        s.lo.Live? ==> s.lo.p.stage.Holding? || s.lo.p.stage == Lost || !CanPay(s.lo.p)
      else !same && s.sh.row.value.state == Failed
  }

  ghost predicate NeverFailedPaid(s: Sys) {
    (s.sh.row.Some? && s.sh.pinned.Some? && s.sh.row.value.state == Failed
     && s.sh.pinned.value.settings.rollback != Manual) ==> !HasSettlementRef(s.sh.row.value)
  }

  lemma UnrepinnedStep(cfg: Config, s: Sys, e: Event, hash: Canonical.Text)
    requires Rows(cfg, s) && Next(cfg, s, e).Some? && Unrepinned(s, hash)
    requires e.Boot? ==> HashOf(e.c) == hash
    ensures Unrepinned(Next(cfg, s, e).value, hash)
  {
    if s.lo.Live? && !e.Boot? {
      if e.Write? {
        WritesAreFactual(cfg, s.lo.p, e.run);
        OneWriterPut(cfg.store, s.lo.p.run, e.run);
      } else {
        OnlyWritesMoveTheRow(cfg, s, e);
      }
    } else {
      UnrepinnedArrival(cfg, s, e, hash);
    }
  }

  lemma UnrepinnedArrival(cfg: Config, s: Sys, e: Event, hash: Canonical.Text)
    requires Rows(cfg, s) && Next(cfg, s, e).Some? && Unrepinned(s, hash) && (!s.lo.Live? || e.Boot?)
    requires e.Boot? ==> HashOf(e.c) == hash
    ensures Unrepinned(Next(cfg, s, e).value, hash)
  {
    if e.Read? && s.sh.row.Some? { DecodingIsExact(s.sh.row.value); }
  }

  lemma RecordedStep(cfg: Config, s: Sys, s': Sys, e: Event, same: bool)
    requires Rows(cfg, s) && Rows(cfg, s') && Changed(cfg, s, s', e) && Recorded(cfg, s, same)
    requires s.lo.Live? ==> (same ==> !Repinned(s.lo.p)) && PaymentSeen(cfg, s.sh, s.lo.p)
    requires s.lo.Live? && e.Write? ==> WriteRights(s.lo.p, e.run)
    requires e.Read? && s'.lo.Live? ==> s'.lo.p.entered == s'.lo.p.run.state
    ensures Recorded(cfg, s', same)
  {
    if e.Write? { RecordedWriteStep(cfg, s, s', e.run, same); }
    else if e.Submit? { RecordedSubmitStep(cfg, s, s', e.req, e.fate, same); }
    else if e.Land? { RecordedLandStep(cfg, s, s', e.ref, same); }
    else if e.Claim? { RecordedClaimStep(cfg, s, s', same); }
    else if e.Find? { RecordedFindStep(cfg, s, s', e.req, e.found, same); }
    else { RecordedQuietStep(cfg, s, s', e, same); }
  }

  lemma RecordedWriteStep(cfg: Config, s: Sys, s': Sys, run: Run, same: bool)
    requires Written(s, s', run) && WriteRights(s.lo.p, run) && s.sh.row == Some(s.lo.p.run)
    requires (same ==> !Repinned(s.lo.p)) && Recorded(cfg, s, same)
    ensures Recorded(cfg, s', same)
  {
  }

  lemma RecordedSubmitStep(cfg: Config, s: Sys, s': Sys, req: Request, fate: Fate, same: bool)
    requires Submitted(cfg, s, s', req, fate) && s.sh.row == Some(s.lo.p.run) && Recorded(cfg, s, same)
    requires PaymentSeen(cfg, s.sh, s.lo.p)
    ensures Recorded(cfg, s', same)
  {
  }

  lemma RecordedLandStep(cfg: Config, s: Sys, s': Sys, ref: Ref, same: bool)
    requires LandedOne(s, s', ref) && Recorded(cfg, s, same)
    ensures Recorded(cfg, s', same)
  {
  }

  lemma RecordedClaimStep(cfg: Config, s: Sys, s': Sys, same: bool)
    requires ClaimedOne(s, s') && Recorded(cfg, s, same)
    ensures Recorded(cfg, s', same)
  {
  }

  lemma RecordedFindStep(cfg: Config, s: Sys, s': Sys, req: Request, found: Option<Ref>, same: bool)
    requires Looked(cfg, s, s', req, found) && Recorded(cfg, s, same)
    ensures Recorded(cfg, s', same)
  {
  }

  lemma RecordedQuietStep(cfg: Config, s: Sys, s': Sys, e: Event, same: bool)
    requires QuietChange(s, s', e) && Recorded(cfg, s, same) && !e.Find?
    requires s'.lo.Live? ==> s'.sh.row == Some(s'.lo.p.run)
    requires s'.lo.Live? && !s.lo.Live? ==> !s'.lo.p.claimed && s'.lo.p.entered == s'.lo.p.run.state
    ensures Recorded(cfg, s', same)
  {
  }

  lemma FailedStep(cfg: Config, s: Sys, s': Sys, e: Event)
    requires Rows(cfg, s) && Rows(cfg, s') && Changed(cfg, s, s', e) && NeverFailedPaid(s)
    requires s.lo.Live? ==> !Repinned(s.lo.p)
    requires s.lo.Live? && e.Write? ==> WriteRights(s.lo.p, e.run)
    ensures NeverFailedPaid(s')
  {
    if e.Write? {
      SameHashSameSettings(cfg.schema, s.lo.p.c, s.sh.pinned.value);
    } else if e.Submit? || e.Land? || e.Claim? || e.Find? {
      BooksRestWhile(cfg, s, s', e);
    }
  }

  lemma {:induction false} UnderOneManifest(cfg: Config, history: seq<Event>, hash: Canonical.Text)
    requires After(cfg, history).Some? && OneManifest(history, hash)
    ensures var s := After(cfg, history).value;
            Unrepinned(s, hash) && Recorded(cfg, s, true) && NeverFailedPaid(s)
  {
    if history != [] {
      var n := |history| - 1;
      UnderOneManifest(cfg, history[..n], hash);
      InvHolds(cfg, history[..n]);
      var s, e := After(cfg, history[..n]).value, history[n];
      UnrepinnedStep(cfg, s, e, hash);
      MoneyStaysRecorded(cfg, s, e, true);
      NeverFailedStep(cfg, s, e, hash);
    }
  }

  lemma {:induction false} UnderAnyManifest(cfg: Config, history: seq<Event>)
    requires After(cfg, history).Some?
    ensures Recorded(cfg, After(cfg, history).value, false)
  {
    if history != [] {
      var n := |history| - 1;
      UnderAnyManifest(cfg, history[..n]);
      InvHolds(cfg, history[..n]);
      MoneyStaysRecorded(cfg, After(cfg, history[..n]).value, history[n], false);
    }
  }

  lemma MoneyStaysRecorded(cfg: Config, s: Sys, e: Event, same: bool)
    requires Inv(cfg, s) && Next(cfg, s, e).Some? && Recorded(cfg, s, same)
    requires same && s.lo.Live? ==> !Repinned(s.lo.p)
    ensures Recorded(cfg, Next(cfg, s, e).value, same)
  {
    var s' := Next(cfg, s, e).value;
    RowsStep(cfg, s, e);
    Changes(cfg, s, e);
    if e.Write? { WritersHaveTheRight(cfg, s.lo.p, e.run); }
    RecordedStep(cfg, s, s', e, same);
  }

  lemma NeverFailedStep(cfg: Config, s: Sys, e: Event, hash: Canonical.Text)
    requires Rows(cfg, s) && Next(cfg, s, e).Some? && Unrepinned(s, hash) && NeverFailedPaid(s)
    ensures NeverFailedPaid(Next(cfg, s, e).value)
  {
    RowsStep(cfg, s, e);
    Changes(cfg, s, e);
    if e.Write? { WritersHaveTheRight(cfg, s.lo.p, e.run); }
    FailedStep(cfg, s, Next(cfg, s, e).value, e);
  }

  /** How a run with a recorded settlement ends under an unchanged manifest whose rollback is not
      `manual`: never failed, completed only on the anchor's word, refunded only with a refund id
      or the anchor's report of a full refund. */
  lemma SettledRunsEndWell(cfg: Config, history: seq<Event>, hash: Canonical.Text, s: Sys)
    requires LeadsTo(cfg, history, s) && OneManifest(history, hash)
    ensures s.sh.row.Some? && HasSettlementRef(s.sh.row.value) ==>
              && s.sh.pinned.Some?
              && (s.sh.row.value.state == Failed ==> s.sh.pinned.value.settings.rollback == Manual)
              && (s.sh.row.value.state == Completed ==> s.sh.confirmed)
              && (s.sh.row.value.state == Refunded ==> s.sh.row.value.refundId.Some? || s.sh.reported)
  {
    Holds(cfg, history, s);
    UnderOneManifest(cfg, history, hash);
  }

  /** If the submitter's failures are the truth, money that moved is recorded before the run can
      end. Only a manifest that changed while the settlement was in flight can fail the run first. */
  lemma MovedMoneyIsRecorded(cfg: Config, history: seq<Event>, hash: Canonical.Text, s: Sys)
    requires LeadsTo(cfg, history, s) && Truthful(cfg)
    ensures s.sh.row.Some? && (s.sh.paid != [] || s.sh.inflight != []) ==>
              || HasSettlementRef(s.sh.row.value) || s.sh.row.value.state == Settling
              || (s.sh.row.value.state == Failed && !OneManifest(history, hash))
  {
    Holds(cfg, history, s);
    UnderAnyManifest(cfg, history);
    if OneManifest(history, hash) { UnderOneManifest(cfg, history, hash); }
  }

  // ----- Refunds follow the rollback policy ------------------------------------------------------------

  function CorridorOf(lo: Local): Option<Corridor> {
    match lo
    case Off => None
    case Booted(c, _) => Some(c)
    case Unclaimed(c, _) => Some(c)
    case Live(p) => Some(p.c)
  }

  /** A process works for the corridor it was called with. */
  lemma KeepsItsCorridor(cfg: Config, lo: Local, e: Event)
    requires LocalNext(cfg, lo, e).Some?
    ensures var c := CorridorOf(LocalNext(cfg, lo, e).value);
            c.Some? ==> c == if e.Boot? then Some(e.c) else CorridorOf(lo)
  {
  }

  /** Only a process of a `refund_sender` corridor asks the chain for a refund. */
  lemma OnlyReversalsRefund(cfg: Config, sh: Shared, lo: Local, e: Event)
    requires LocalNext(cfg, lo, e).Some? && SharedNext(cfg, sh, e).Some?
    requires SharedNext(cfg, sh, e).value.refunds != sh.refunds
    ensures lo.Live? && lo.p.c.settings.rollback == RefundSender
  {
  }

  predicate Reversing(history: seq<Event>, i: nat) {
    i < |history| && history[i].Boot? && history[i].c.settings.rollback == RefundSender
  }

  /** Who has asked for a refund, or still may, was called with a `refund_sender` manifest. */
  ghost predicate AskedByPolicy(history: seq<Event>, s: Sys) {
    || (exists i :: Reversing(history, i))
    || (s.sh.refunds == [] && (CorridorOf(s.lo).Some? ==> CorridorOf(s.lo).value.settings.rollback != RefundSender))
  }

  lemma {:induction false} RefundsAreAskedByPolicy(cfg: Config, history: seq<Event>)
    requires After(cfg, history).Some?
    ensures AskedByPolicy(history, After(cfg, history).value)
  {
    if history != [] {
      var n := |history| - 1;
      var s, e := After(cfg, history[..n]).value, history[n];
      RefundsAreAskedByPolicy(cfg, history[..n]);
      KeepsItsCorridor(cfg, s.lo, e);
      if SharedNext(cfg, s.sh, e).value.refunds != s.sh.refunds { OnlyReversalsRefund(cfg, s.sh, s.lo, e); }
      if i :| Reversing(history[..n], i) { assert Reversing(history, i); }
      if e.Boot? && e.c.settings.rollback == RefundSender { assert Reversing(history, n); }
    }
  }

  /** A run that ends refunded without a settlement on its row was refunded by policy, or on the
      anchor's report. */
  ghost predicate RefundedByPolicy(s: Sys) {
    && (s.sh.row.Some? && s.sh.row.value.state == Refunded && !HasSettlementRef(s.sh.row.value) ==>
          s.sh.reported || (s.sh.pinned.Some? && s.sh.pinned.value.settings.rollback == RefundSender))
    && (s.lo.Live? ==>
          && (s.lo.p.stage.Returned? ==> HasSettlementRef(s.lo.p.run))
          && (s.lo.p.entered in {Settled, Reconciled} ==> HasSettlementRef(s.lo.p.run)))
  }

  lemma RefundedStep(cfg: Config, s: Sys, e: Event)
    requires Rows(cfg, s) && Justified(s) && RefundedByPolicy(s) && Next(cfg, s, e).Some?
    ensures RefundedByPolicy(Next(cfg, s, e).value)
  {
    var s' := Next(cfg, s, e).value;
    RowsStep(cfg, s, e);
    if s.lo.Live? && e.Write? {
      WritersHaveTheRight(cfg, s.lo.p, e.run);
      WriteChanges(cfg, s, e.run);
      if !Repinned(s.lo.p) { SameHashSameSettings(cfg.schema, s.lo.p.c, s.sh.pinned.value); }
      RefundedWrite(s, s', e.run);
    } else if s.lo.Live? && !e.Boot? {
      OnlyWritesMoveTheRow(cfg, s, e);
      if !e.Land? { ReturnedNeedsASettlement(cfg, s.lo.p, e); }
      ReportsStay(cfg, s.sh, e);
    } else {
      RefundedArrival(cfg, s, e);
    }
  }

  lemma RefundedWrite(s: Sys, s': Sys, run: Run)
    requires Justified(s) && RefundedByPolicy(s) && Written(s, s', run) && WriteRights(s.lo.p, run)
    requires s.sh.row == Some(s.lo.p.run) && Shaped(s.lo.p.run) && s.sh.pinned.Some?
    requires !Repinned(s.lo.p) ==> s.lo.p.c.settings == s.sh.pinned.value.settings
    ensures RefundedByPolicy(s')
  {
  }

  lemma ReturnedNeedsASettlement(cfg: Config, p: Process, e: Event)
    requires ProcessNext(cfg, p, e).Some? && !e.Write?
    ensures ProcessNext(cfg, p, e).value.stage.Returned? ==> p.stage.Returned? || HasSettlementRef(p.run)
  {
  }

  lemma ReportsStay(cfg: Config, sh: Shared, e: Event)
    requires SharedNext(cfg, sh, e).Some?
    ensures sh.reported ==> SharedNext(cfg, sh, e).value.reported
  {
  }

  lemma RefundedArrival(cfg: Config, s: Sys, e: Event)
    requires Rows(cfg, s) && RefundedByPolicy(s) && Next(cfg, s, e).Some? && (!s.lo.Live? || e.Boot?)
    ensures RefundedByPolicy(Next(cfg, s, e).value)
  {
    if e.Read? && s.sh.row.Some? { DecodingIsExact(s.sh.row.value); }
  }

  lemma {:induction false} RefundedByPolicyHolds(cfg: Config, history: seq<Event>)
    requires After(cfg, history).Some?
    ensures RefundedByPolicy(After(cfg, history).value)
  {
    if history != [] {
      var n := |history| - 1;
      RefundedByPolicyHolds(cfg, history[..n]);
      InvHolds(cfg, history[..n]);
      RefundedStep(cfg, After(cfg, history[..n]).value, history[n]);
    }
  }

  /** Only `refund_sender` refunds. A refund is asked for only where some call carried such a
      manifest, under an unchanged manifest the run's own; and a run that ends refunded with no
      settlement on its row was pinned to such a manifest, or the anchor reported the refund. */
  lemma RefundsFollowThePolicy(cfg: Config, history: seq<Event>, hash: Canonical.Text, s: Sys)
    requires LeadsTo(cfg, history, s)
    ensures s.sh.refunds != [] ==> exists i :: Reversing(history, i)
    ensures s.sh.refunds != [] && OneManifest(history, hash) ==>
              s.sh.pinned.Some? && s.sh.pinned.value.settings.rollback == RefundSender
    ensures s.sh.row.Some? && s.sh.row.value.state == Refunded && !HasSettlementRef(s.sh.row.value) ==>
              s.sh.reported || (s.sh.pinned.Some? && s.sh.pinned.value.settings.rollback == RefundSender)
  {
    LeadingIsHappening(cfg, history, s);
    RefundsAreAskedByPolicy(cfg, history);
    RefundedByPolicyHolds(cfg, history);
    if s.sh.refunds != [] && OneManifest(history, hash) {
      var i :| Reversing(history, i);
      assert s.sh.row.Some? by { InvHolds(cfg, history); }
      PinnedAsCalled(cfg, history, hash, i);
    }
  }

  /** Under an unchanged manifest every call carries the settings the run is pinned to. */
  lemma PinnedAsCalled(cfg: Config, history: seq<Event>, hash: Canonical.Text, i: nat)
    requires After(cfg, history).Some? && OneManifest(history, hash) && i < |history| && history[i].Boot?
    requires After(cfg, history).value.sh.row.Some?
    ensures After(cfg, history).value.sh.pinned.Some?
    ensures history[i].c.settings == After(cfg, history).value.sh.pinned.value.settings
  {
    UnderOneManifest(cfg, history, hash);
    InvHolds(cfg, history);
    BootsAreParsed(cfg, history, i);
    SameHashSameSettings(cfg.schema, history[i].c, After(cfg, history).value.sh.pinned.value);
  }

  lemma {:induction false} BootsAreParsed(cfg: Config, history: seq<Event>, i: nat)
    requires After(cfg, history).Some? && i < |history| && history[i].Boot?
    ensures Parsed(cfg.schema, history[i].c)
    decreases |history|
  {
    var n := |history| - 1;
    if i < n { BootsAreParsed(cfg, history[..n], i); }
  }
}
