/**
 * The transition and failure handling a fresh and a resumed run share: `createRunContext` and
 * `failRun` of packages/engine/src/run.ts.
 */
module RunContexts {
  import opened Prelude
  import opened States
  import opened Runs
  import opened Stores
  import opened Protocol
  import opened Breaker
  import opened Outside

  /** One audit entry: a transition and the version it was stored under. */
  datatype Entry = Entry(from: State, to: State, version: nat)

  /** A process that may fail its run: its own, a settled one, or one it resumed and has to give up. */
  predicate MayGiveUp(p: Process) {
    p.run.state !in {Recovering, RefundPending} && (p.claimed || HasSettlementRef(p.run) || MayFailResumed(p))
  }

  lemma FailIsAllowed(cfg: Config, p: Process, lastError: Option<string>)
    requires CanTransition(p.run.state, Failed) && !p.stage.Holding? && p.stage != Lost
    requires !p.claimed && p.entered == Settling && p.run.state == Settling ==> Stranger(p)
    requires HasSettlementRef(p.run) ==> p.c.settings.rollback == Manual || Stranger(p)
    requires Stranger(p) || MayGiveUp(p)
    ensures MayWrite(cfg, p, Step(p.run.(lastError := lastError), Failed))
  {
  }

  lemma HoldIsAllowed(cfg: Config, p: Process, lastError: Option<string>)
    requires !Stranger(p) && !p.stage.Holding? && p.stage != Lost && p.run.state in {Recovering, RefundPending}
    ensures MayWrite(cfg, p, Step(p.run.(lastError := lastError), Held))
  {
  }

  lemma RefundedIsAllowed(cfg: Config, p: Process, lastError: Option<string>)
    requires !Stranger(p) && !p.stage.Holding? && p.stage != Lost && p.run.state in {Recovering, RefundPending}
    requires RefundEvidence(p)
    ensures MayWrite(cfg, p, Step(p.run.(lastError := lastError, refundId := RefundIdAfter(p)), Refunded))
  {
  }

  /** A trail and its audit entries tell one story: legal transitions from `first` to `last`, one
      entry each, stored under rising versions no higher than `version`. */
  ghost predicate Story(trail: seq<State>, audit: seq<Entry>, first: State, last: State, version: nat) {
    && |trail| == |audit| + 1 && trail[0] == first && trail[|audit|] == last
    && (forall i | 0 <= i < |audit| :: Tells(trail, audit, i) && audit[i].version <= version)
    && (forall i, j | 0 <= i < j < |audit| :: audit[i].version < audit[j].version)
  }

  predicate Tells(trail: seq<State>, audit: seq<Entry>, i: nat)
    requires i < |audit| && |trail| == |audit| + 1
  {
    audit[i].from == trail[i] && audit[i].to == trail[i + 1] && CanTransition(trail[i], trail[i + 1])
  }

  lemma StoryGoesOn(trail: seq<State>, audit: seq<Entry>, first: State, last: State, version: nat, to: State)
    requires Story(trail, audit, first, last, version) && CanTransition(last, to)
    ensures Story(trail + [to], audit + [Entry(last, to, version + 1)], first, to, version + 1)
  {
    var trail', audit' := trail + [to], audit + [Entry(last, to, version + 1)];
    forall i | 0 <= i < |audit'| ensures Tells(trail', audit', i) && audit'[i].version <= version + 1 {
      if i < |audit| { assert Tells(trail, audit, i); }
    }
  }

  /** What the breaker is told about a run that ended like this. */
  function Told(cfg: Config, state: State, code: Option<Code>): seq<bool> {
    if cfg.health && OutcomeFor(state, code) != Neutral then [state == Completed] else []
  }

  /** The anchor failed the transaction and refunds it itself. */
  predicate AnchorRefunds(run: Run, error: Error) {
    HasSettlementRef(run) && Given(run.transactionId) && error.anchorTerminal
  }

  /** A payment went out on the chain that nobody has asked back yet. */
  predicate AsksTheChain(run: Run, error: Error) {
    && HasSettlementRef(run) && !AnchorRefunds(run, error) && !IsOffChain(run)
    && !HasRequestedRefund(run) && run.settlementAmount.Some?
  }

  /** The refund that reverses a recorded payment: that payment, in full. */
  function Reversal(run: Run): RefundCall
    requires HasSettlementRef(run) && run.settlementAmount.Some?
  {
    RefundCall(OriginalOf(run), run.settlementAmount.value)
  }

  /** Nothing went out, or it has been asked back already. */
  predicate NothingToReverse(run: Run, error: Error) {
    !AnchorRefunds(run, error) && (HasSettlementRef(run) ==> !IsOffChain(run) && HasRequestedRefund(run))
  }

  class RunContext {
    const w: World
    const c: Corridor
    var run: Run
    var trail: seq<State>
    var audit: seq<Entry>
    const first: State                 // where the trail starts
    ghost const before: seq<Event>     // the history so far when it started

    constructor (w: World, c: Corridor, run: Run)
      requires w.Valid() && w.sys.lo.Live? && w.sys.lo.p.c == c && w.sys.lo.p.run == run
      requires w.sys.lo.p.stage != Lost
      ensures this.w == w && this.c == c && this.run == run && Synced()
      ensures first == run.state && before == w.trace
    {
      this.w, this.c, this.run := w, c, run;
      trail, audit, first := [run.state], [], run.state;
      before := w.trace;
    }

    ghost predicate Journal()
      reads this
    {
      Story(trail, audit, first, run.state, run.version)
    }

    /** The run differs from what was last written at most in fields about to be written. */
    ghost predicate Bound()
      reads this, w
    {
      && w.Valid() && w.sys.lo.Live? && w.sys.lo.p.c == c && w.sys.lo.p.stage != Lost
      && w.sys.lo.p.run.state == run.state && w.sys.lo.p.run.version == run.version
      && Journal() && before <= w.trace
    }

    /** The run is what was last written or read. */
    ghost predicate Synced()
      reads this, w
    {
      Bound() && w.sys.lo.p.run == run
    }

    ghost function Me(): Process
      requires w.sys.lo.Live?
      reads this, w
    {
      w.sys.lo.p
    }

    /** Move to `to` and store the run there, if the table allows it. */
    method Advance(to: State) returns (ok: bool)
      requires Bound() && (CanTransition(run.state, to) ==> MayWrite(w.cfg, Me(), Step(run, to)))
      modifies this`run, this`trail, this`audit, w
      ensures ok == CanTransition(old(run.state), to)
      ensures Bound()
      ensures ok ==> run == old(Step(run, to)) && w.sys.lo == Live(AfterWrite(old(Me()), run))
      ensures !ok ==> run == old(run) && w.sys == old(w.sys)
      ensures w.Books() == old(w.Books()) && w.smooth == old(w.smooth)
    {
      ok := CanTransition(run.state, to);
      if ok { Move(to); }
    }

    method Move(to: State)
      requires Bound() && CanTransition(run.state, to) && MayWrite(w.cfg, Me(), Step(run, to))
      modifies this`run, this`trail, this`audit, w
      ensures Bound() && run == old(Step(run, to)) && w.sys.lo == Live(AfterWrite(old(Me()), run))
      ensures w.Books() == old(w.Books()) && w.smooth == old(w.smooth)
    {
      var from := run.state;
      ghost var past := trail;
      run := Step(run, to);
      trail := trail + [to];
      Put();
      Tell(from, past);
    }

    /** The audit entry of the transition just stored. */
    method Tell(from: State, ghost past: seq<State>)
      requires run.version > 0 && Story(past, audit, first, from, run.version - 1) && CanTransition(from, run.state)
      requires trail == past + [run.state]
      modifies this`audit
      ensures Journal()
    {
      StoryGoesOn(past, audit, first, from, run.version - 1, run.state);
      audit := audit + [Entry(from, run.state, run.version)];
    }

    /** `store.put(run)`. */
    method Put()
      requires w.Valid() && w.sys.lo.Live? && Me().stage != Lost && MayWrite(w.cfg, Me(), run) && before <= w.trace
      modifies w
      ensures w.Valid() && w.sys.lo == Live(AfterWrite(old(Me()), run)) && Me().stage != Lost && before <= w.trace
      ensures w.Books() == old(w.Books()) && w.smooth == old(w.smooth)
    {
      w.PutRun(run);
    }

    /** Store the source deposit's reference: a write that is not a transition. */
    method NoteDeposit(id: string)
      requires Synced() && run.state == Funding && run.sourceTransactionId.None? && id != ""
      requires !Stranger(Me()) && !Me().stage.Holding?
      modifies this`run, w
      ensures Synced() && trail == old(trail)
      ensures run == old(Step(run, Funding)).(sourceTransactionId := Some(id))
      ensures Me() == AfterWrite(old(Me()), run) && w.smooth == old(w.smooth)
    {
      run := Step(run, Funding).(sourceTransactionId := Some(id));
      w.PutRun(run);
    }

    /** A process that may fail its run. */
    ghost predicate MayFail()
      reads this, w
    {
      && Synced() && !Me().stage.Holding?
      && (!Me().claimed && Me().entered == Settling && run.state == Settling ==> Stranger(Me()))
      && (HasSettlementRef(run) ==> c.settings.rollback == Manual || Stranger(Me()))
      && (Stranger(Me()) || MayGiveUp(Me())) && !Me().judged
    }

    /** Tell the breaker how a finished run went, if it says anything about the lane. */
    method RecordOutcome(code: Option<Code>)
      requires Synced() && IsTerminal(run.state) && !Me().judged
      requires code.None? <==> run.state == Completed
      modifies w
      ensures Synced()
      ensures w.sys.lo.p == old(Me()).(judged := Me().judged) && w.smooth == old(w.smooth)
      ensures w.Books() == (old(w.Books()).0, old(w.Books()).1 + Told(w.cfg, run.state, code))
      // A completed run counts for its lane and one that ended on a failure of the lane against it;
      // no other run is mentioned, and no breaker hears of any.
      ensures w.Books().1 == old(w.Books()).1
                + (if w.cfg.health && run.state == Completed then [true]
                   else if w.cfg.health && run.state != Completed
                           && code.value in {SettlementFailed, SettlementTimeout, ReconcileMismatch, ReconcileStalled,
                                             PresettleInsufficientFunds, PresettleAnchorDrift, PresettleTxMismatch,
                                             PresettleDestinationUnsafe} then [false]
                   else [])
    {
      var verdict := OutcomeFor(run.state, code);
      assert w.Books().1 + [] == w.Books().1;
      if w.cfg.health && verdict != Neutral {
        w.Judge(verdict == Success);
      }
    }

    /** Store the last state of a run and tell the breaker. */
    method End(to: State, cause: Code)
      requires Bound() && IsTerminal(to) && to != Completed && CanTransition(run.state, to) && !Me().judged
      requires MayWrite(w.cfg, Me(), Step(run, to))
      modifies this`run, this`trail, this`audit, w
      ensures Synced() && run == old(Step(run, to)) && w.smooth == old(w.smooth)
      ensures w.Books() == (old(w.Books()).0, old(w.Books()).1 + Told(w.cfg, to, Some(cause)))
    {
      var done := Advance(to);
      assert done;
      RecordOutcome(Some(cause));
    }

    /** `die`: fail the run and store it, unless it is already over. */
    method Die(error: Error)
      requires MayFail()
      modifies this`run, this`trail, this`audit, w
      ensures Synced()
      ensures CanTransition(old(run.state), Failed) ==>
                run == old(Step(run, Failed)).(lastError := Some(ErrorText(error)))
      ensures !CanTransition(old(run.state), Failed) ==> run == old(run) && w.trace == old(w.trace)
      ensures w.smooth == old(w.smooth) && w.Books().0 == old(w.Books()).0
      ensures CanTransition(old(run.state), Failed) ==>
                w.Books().1 == old(w.Books()).1 + Told(w.cfg, Failed, Some(error.code))
      ensures !IsLaneFailure(error.code) ==> w.Books() == old(w.Books())
    {
      assert w.Books().1 + [] == w.Books().1;
      if !CanTransition(run.state, Failed) { return; }
      FailIsAllowed(w.cfg, Me(), Some(ErrorText(error)));
      run := run.(lastError := Some(ErrorText(error)));
      End(Failed, error.code);
    }

    /** A process that may take its run into recovery and end it there. */
    ghost predicate MayStop()
      reads this, w
    {
      && Synced() && !Stranger(Me()) && !Me().stage.Holding? && !Me().judged
      && (!Me().claimed && Me().entered == Settling ==> run.state != Settling)
      && ((CanTransition(run.state, Recovering) && MayRecover()) || run.state in {Recovering, RefundPending})
    }

    ghost predicate MayRecover()
      requires w.sys.lo.Live?
      reads this, w
    {
      Me().claimed || HasSettlementRef(run) || MayRecoverResumed(w.cfg, Me()) || FailsInstead()
    }

    /** A resumed run whose deposit fell through under `manual` is failed, not taken into recovery. */
    ghost predicate FailsInstead()
      requires w.sys.lo.Live?
      reads this, w
    {
      !Me().claimed && run.state == Funding && c.settings.rollback == Manual
    }

    method EnterRecovery()
      requires MayStop() && CanTransition(run.state, Recovering) && !FailsInstead()
      modifies this`run, this`trail, this`audit, w
      ensures MayStop() && run == old(Step(run, Recovering))
      ensures Me() == AfterWrite(old(Me()), run)
      ensures w.Books() == old(w.Books()) && w.smooth == old(w.smooth)
    {
      var back := Advance(Recovering);
      assert back;
    }

    /** Park the run for a human. The breaker judges `cause`, which may be an earlier failure. */
    method HoldAndStop(error: Error, cause: Code)
      requires MayStop() && !FailsInstead()
      modifies this`run, this`trail, this`audit, w
      ensures Synced() && run.state == Held
      ensures run.settlementRef == old(run.settlementRef) && run.refundId == old(run.refundId)
      ensures run.lastError == Some(ErrorText(error)) && w.smooth == old(w.smooth)
      ensures w.Books() == (old(w.Books()).0, old(w.Books()).1 + Told(w.cfg, Held, Some(cause)))
    {
      if run.state != Recovering && run.state != RefundPending {
        EnterRecovery();
      }
      HoldIsAllowed(w.cfg, Me(), Some(ErrorText(error)));
      run := run.(lastError := Some(ErrorText(error)));
      End(Held, cause);
    }

    /** A process that may decide on a refund: it did not resume one. */
    ghost predicate MayRefundNow()
      reads this, w
    {
      && MayStop() && run.state != RefundPending && !Me().asked
      && Me().entered !in {Recovering, RefundPending}
    }

    /** ... and whose manifest asks for one. */
    ghost predicate MayReverse()
      reads this, w
    {
      MayRefundNow() && c.settings.rollback == RefundSender
    }

    /** Wait for the refund the anchor itself announced by failing the transaction. */
    method AwaitAnchorRefund(error: Error)
      requires MayReverse() && run.state == Recovering && Me().stage == Idle && HasSettlementRef(run)
      modifies this`run, this`trail, this`audit, w
      ensures Synced() && run.state in {Refunded, Held}
      ensures w.smooth ==> old(w.smooth) && run.state == Refunded
      ensures w.Books() == (old(w.Books()).0, old(w.Books()).1 + Told(w.cfg, run.state, Some(error.code)))
    {
      EnterRefundPending(error);
      var report := w.Watch();
      match report
      case Ok(id) => RecordAnchorRefund(id, Some(ErrorText(error)), error.code);
      case Err(watch) => HoldAndStop(watch, error.code);
    }

    method EnterRefundPending(error: Error)
      requires MayReverse() && run.state == Recovering && Me().stage == Idle && HasSettlementRef(run)
      modifies this`run, this`trail, this`audit, w
      ensures MayStop() && run.state == RefundPending && Me().stage == Idle
      ensures run.lastError == Some(ErrorText(error)) && w.Books() == old(w.Books()) && w.smooth == old(w.smooth)
    {
      run := run.(lastError := Some(ErrorText(error)));
      var pending := Advance(RefundPending);
      assert pending;
    }

    /** The anchor reported a full refund: keep its payment id, if it named one. */
    method RecordAnchorRefund(id: Option<string>, lastError: Option<string>, cause: Code)
      requires MayStop() && run.state == RefundPending && Me().stage == Reported(id)
      modifies this`run, this`trail, this`audit, w
      ensures Synced() && run.state == Refunded && run.lastError == lastError && w.smooth == old(w.smooth)
      ensures run.refundId == if !old(HasRequestedRefund(run)) && Given(id) then id else old(run.refundId)
      ensures w.Books() == (old(w.Books()).0, old(w.Books()).1 + Told(w.cfg, Refunded, Some(cause)))
    {
      RefundedIsAllowed(w.cfg, Me(), lastError);
      run := run.(lastError := lastError);
      if !HasRequestedRefund(run) && Given(id) { run := run.(refundId := id); }
      End(Refunded, cause);
    }

    /** Undo a settlement the manifest says to undo: wait for the anchor if it failed the
        transaction, ask the chain once if a payment went out, or record that nothing did. */
    method RefundAndStop(error: Error)
      requires MayReverse() && run.state != Recovering
      modifies this`run, this`trail, this`audit, w
      ensures Synced() && run.state in {Refunded, Held} && (w.smooth ==> old(w.smooth))
      ensures w.Books().1 == old(w.Books()).1 + Told(w.cfg, run.state, Some(error.code))
      ensures w.Books().0 == old(w.Books()).0
                             + (if old(AsksTheChain(run, error)) then old([Reversal(run)]) else [])
      ensures old(NothingToReverse(run, error)) ==> run.state == Refunded
      ensures old(AsksTheChain(run, error) || AnchorRefunds(run, error)) && w.smooth ==> run.state == Refunded
      ensures old(HasSettlementRef(run) && IsOffChain(run) && !AnchorRefunds(run, error)) ==> run.state == Held
    {
      EnterRecovery();
      Reverse(error);
    }

    method Reverse(error: Error)
      requires MayReverse() && run.state == Recovering && Me().stage == Idle
      modifies this`run, this`trail, this`audit, w
      ensures Synced() && run.state in {Refunded, Held} && (w.smooth ==> old(w.smooth))
      ensures w.Books().1 == old(w.Books()).1 + Told(w.cfg, run.state, Some(error.code))
      ensures w.Books().0 == old(w.Books()).0
                             + (if old(AsksTheChain(run, error)) then old([Reversal(run)]) else [])
      ensures old(NothingToReverse(run, error)) ==> run.state == Refunded
      ensures old(AsksTheChain(run, error) || AnchorRefunds(run, error)) && w.smooth ==> run.state == Refunded
      ensures old(HasSettlementRef(run) && IsOffChain(run) && !AnchorRefunds(run, error)) ==> run.state == Held
    {
      if HasSettlementRef(run) && Given(run.transactionId) && error.anchorTerminal {
        AwaitAnchorRefund(error);
      } else if HasSettlementRef(run) && IsOffChain(run) {
        HoldAndStop(Fail(RefundUnsupported, "adapter-reported settlement"), error.code);
      } else if HasSettlementRef(run) && !HasRequestedRefund(run) {
        RefundOnChain(error);
      } else {
        RecordRefunded(run.refundId, error);
      }
    }

    /** Ask the chain to reverse the recorded payment, or hold when it cannot or will not. */
    method RefundOnChain(error: Error)
      requires MayReverse() && run.state == Recovering && Me().stage == Idle
      requires HasSettlementRef(run) && !IsOffChain(run) && !HasRequestedRefund(run)
      modifies this`run, this`trail, this`audit, w
      ensures Synced() && run.state in {Refunded, Held} && (w.smooth ==> old(w.smooth))
      ensures w.Books().1 == old(w.Books()).1 + Told(w.cfg, run.state, Some(error.code))
      ensures w.Books().0 == old(w.Books()).0 + (if old(run.settlementAmount.Some?) then old([Reversal(run)]) else [])
      ensures old(run.settlementAmount.Some?) && w.smooth ==> run.state == Refunded
    {
      if run.settlementAmount.None? {
        HoldAndStop(Fail(SettlementFailed, "stored settlement amount is missing"), error.code);
      } else {
        var id := w.RequestRefund(RefundCall(OriginalOf(run), run.settlementAmount.value));
        match id
        case Ok(refund) => RecordRefunded(Some(refund), error);
        case Err(refused) => HoldAndStop(refused, error.code);
      }
    }

    method RecordRefunded(refundId: Option<string>, error: Error)
      requires MayStop() && run.state == Recovering && RefundEvidence(Me())
      requires refundId == RefundIdAfter(Me())
      modifies this`run, this`trail, this`audit, w
      ensures Synced() && run.state == Refunded && run.refundId == refundId && w.smooth == old(w.smooth)
      ensures run.lastError == Some(ErrorText(error))
      ensures w.Books() == (old(w.Books()).0, old(w.Books()).1 + Told(w.cfg, Refunded, Some(error.code)))
    {
      var lastError := Some(ErrorText(error));
      RefundedIsAllowed(w.cfg, Me(), lastError);
      run := run.(lastError := lastError, refundId := refundId);
      End(Refunded, error.code);
    }

    /** End the run the way the manifest's rollback policy says. */
    method FinishFailure(error: Error)
      requires MayRefundNow() && run.state != Recovering
      requires run.state == Funded ==> Me().claimed || Me().stage.Clear?
      modifies this`run, this`trail, this`audit, w
      ensures Synced() && (w.smooth ==> old(w.smooth))
      ensures run.state in (match c.settings.rollback
                            case RefundSender => {Refunded, Held}
                            case Hold => {Held}
                            case Manual => {Failed})
      ensures w.Books().0 == old(w.Books()).0
                             + (if c.settings.rollback == RefundSender && old(AsksTheChain(run, error))
                                then old([Reversal(run)]) else [])
      ensures c.settings.rollback == RefundSender && old(NothingToReverse(run, error)) ==> run.state == Refunded
    {
      match c.settings.rollback
      case RefundSender => RefundAndStop(error);
      case Hold => HoldAndStop(error, error.code);
      case Manual => Die(error);
    }
  }
}
