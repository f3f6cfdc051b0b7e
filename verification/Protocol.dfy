/**
 * What one engine process may do, and what the world does back.
 *
 * Every effect an `execute` call has on the outside, and every answer it acts on, is an
 * `Event`. `LocalNext` says which event a process may take next given only what it has seen
 * itself; `SharedNext` says which answers the durable row and the chain can give. Stopping is
 * always allowed: a process that takes no further event has crashed, and `Boot` starts a new
 * one that remembers nothing.
 *
 * Engine.dfy shows that the code of packages/engine/src/run.ts only ever takes allowed
 * events. OneWorker.dfy and Interleaving.dfy draw the consequences.
 */
module Protocol {
  import opened Prelude
  import opened States
  import opened Canonical
  import opened Runs
  import opened Stores

  /** What a deployment fixes: the key, which ports are supplied and what they promise, and the
      store. */
  datatype Config = Config(
    key: string,
    gate: bool,        // a pre-settle gate (otherwise it is skipped explicitly)
    canFind: bool,     // the submitter has findExisting
    misreports: bool,  // it may report a payment as failed that has landed, or lands after a final failure
    lateRetries: bool, // it may report one as a retryable failure that lands only later
    health: bool,      // a circuit breaker store
    store: StoreKind,
    schema: Schema)

  datatype Payment = Payment(req: Request, ref: Ref)
  datatype RefundCall = RefundCall(original: Ref, amount: int)

  /** What becomes of a submitted payment. `Misreported`: it lands and is reported as failed.
      `Delayed`: it is reported as failed, and may still land later.
      `Hung`: the process never hears back, and the payment may still land later. */
  datatype Fate =
    | Accepted(ref: Ref)
    | Misreported(ref: Ref, retryable: bool)
    | Rejected(retryable: bool)
    | Delayed(retryable: bool)
    | Hung

  datatype Event =
    | Boot(c: Corridor, dry: bool)
    | Read(row: Option<Run>)
    | Claim(run: Run, claimer: Corridor, won: bool)
    | Write(run: Run)
    | Gate(quote: Quote, skipped: bool, passed: bool)
    | Clock(at: int)
    | Find(req: Request, found: Option<Ref>)
    | Submit(req: Request, fate: Fate)
    | Confirm(reference: Option<string>, retryable: bool)
    | Backoff(ms: nat)
    | Reconcile(settled: bool)
    | Refund(call: RefundCall, id: Option<string>)
    | WatchRefund(full: bool, id: Option<string>)
    | Outcome(success: bool)
    | Land(ref: Ref)   // a payment in flight reaches the chain

  // ----- One process -----------------------------------------------------------------

  /** The evidence a process holds since its last step. */
  datatype Stage =
    | Idle
    | Rested                                         // backed off after a retry
    | Gated(passed: bool, at: Option<int>)           // the gate answered; a clock reading since
    | Armed                                          // `settling` written, nothing asked yet
    | Clear(req: Request, since: Option<int>)        // findExisting found no such payment
    | Holding(held: Request, ref: Ref)               // a settlement reference in hand
    | Refused(retryable: bool)                       // the submit came back as a failure
    | Confirmed                                      // the anchor answered settled
    | Returned(refund: string)                       // the submitter accepted a refund
    | Reported(id: Option<string>)                   // the anchor reported a full refund
    | Lost                                           // waiting for an answer that never comes

  datatype Process = Process(
    c: Corridor,
    dry: bool,
    claimed: bool,      // this process claimed the key
    entered: State,     // the state it started from
    run: Run,           // the run as last written or read
    attempt: nat,
    stage: Stage,
    asked: bool,        // it called refund
    judged: bool)       // it reported to the breaker

  datatype Local =
    | Off
    | Booted(c: Corridor, dry: bool)
    | Unclaimed(c: Corridor, dry: bool)
    | Live(p: Process)

  /** The run is pinned to a manifest other than this one. */
  ghost predicate PinnedElsewhere(run: Run, c: Corridor) {
    run.manifestHash.Some? && run.manifestHash.value != HashOf(c)
  }

  /** Resumed under a manifest other than the one the run is pinned to. */
  ghost predicate Repinned(p: Process) {
    !p.claimed && PinnedElsewhere(p.run, p.c)
  }

  /** ... before settlement: such a process may only fail the run. */
  ghost predicate Stranger(p: Process) {
    Repinned(p) && p.entered !in {Settled, Reconciled}
  }

  /** The quote the run was opened with still binds at `now`. */
  predicate QuoteBinds(run: Run, now: Option<int>) {
    run.quoteFirm == Some(true) && run.quoteExpiresAt.Some? ==>
      now.Some? && now.value < run.quoteExpiresAt.value
  }

  /** Where the sender's side has to be drawn first, it has been. */
  predicate Drawn(p: Process) {
    p.c.settings.prefunded || Given(p.run.sourceTransactionId)
  }

  /** A resumed process on its way to `settling`: it found the payment, or it found none, may
      submit (no gate to re-evaluate) and did not start from a settlement in flight. */
  predicate MayWalkOn(cfg: Config, p: Process) {
    && Drawn(p)
    && (p.stage.Holding? || (p.stage.Clear? && !cfg.gate && p.entered != Settling))
  }

  /** A process that carries out the manifest's `refund_sender`; one that resumes a recovery only
      waits for the refund the recovery asked for. */
  predicate Reverses(p: Process) {
    p.c.settings.rollback == RefundSender && p.entered !in {Recovering, RefundPending}
  }

  /** Why a run may become `refunded`. */
  predicate RefundEvidence(p: Process) {
    || p.stage.Returned? || p.stage.Reported?
    || HasRequestedRefund(p.run)
    || (Reverses(p) && !HasSettlementRef(p.run))
  }

  function RefundIdAfter(p: Process): Option<string> {
    match p.stage
    case Returned(id) => Some(id)
    case Reported(id) => if Given(id) && !HasRequestedRefund(p.run) then id else p.run.refundId
    case _ => p.run.refundId
  }

  /** The one write that is not a transition: the source deposit reference. */
  predicate NotesDeposit(p: Process, next: Run) {
    && p.run.state == Funding == next.state
    && p.run.sourceTransactionId.None? && Given(next.sourceTransactionId)
    && next == Step(p.run, Funding).(sourceTransactionId := next.sourceTransactionId)
  }

  /** The writes of a fresh run up to its opened transaction: each sets its own fields. */
  predicate Prepares(cfg: Config, p: Process, next: Run) {
    var same := Step(p.run, next.state);
    match next.state
    case Quoted =>
      p.claimed && next == same.(quoteId := next.quoteId, quoteExpiresAt := next.quoteExpiresAt,
                               quoteFirm := next.quoteFirm, settlementAmount := next.settlementAmount)
      && next.quoteExpiresAt.Some? && next.quoteFirm.Some? && next.settlementAmount.Some?
    case Compliant => p.claimed && next == same
    case Opened =>
      p.claimed && next == same.(transactionId := next.transactionId, depositAddress := next.depositAddress,
                               memo := next.memo, memoType := next.memoType)
      && next.transactionId.Some?
    case Funding =>
      && next == same && !p.c.settings.prefunded
      && (if p.claimed then !p.dry else p.stage.Clear? && !cfg.gate)
    case Funded => next == same && Given(next.sourceTransactionId)
    case _ => false
  }

  /** The writes that lead a run through settlement to the end of the happy path. */
  predicate Advances(cfg: Config, p: Process, next: Run) {
    var same := Step(p.run, next.state);
    match next.state
    case Verifying => next == same && (if p.claimed then p.stage.Gated? else MayWalkOn(cfg, p))
    case Settling =>
      && next == same
      && (if p.claimed then
            !p.dry && p.stage.Gated? && p.stage.passed && QuoteBinds(p.run, p.stage.at)
          else
            MayWalkOn(cfg, p) && (p.stage.Clear? ==> QuoteBinds(p.run, p.stage.since)))
    case Retrying =>
      next == same && p.claimed && p.stage == Refused(true) && p.attempt < p.c.settings.maxRetries
    case Settled =>
      p.stage.Holding? && next == RecordSettlement(same, p.stage.held, p.stage.ref)
    case Reconciled => next == same && p.stage.Confirmed?
    case Completed => next == same
    case _ => false
  }

  /** When a process that resumed an unsettled run may fail it: the run was never opened, the process
      looked and found no payment, or under `manual` its deposit fell through or its submit failed. */
  predicate MayFailResumed(p: Process) {
    || Unopened(p.run.state) || p.stage.Clear?
    || ((p.run.state == Funding || p.stage.Refused?) && p.c.settings.rollback == Manual)
  }

  /** ... and when it may take it into recovery: its deposit fell through and the manifest does not say
      `manual`, or there is no gate to stop at and its quote lapsed while it was funded or the process
      looked and found no payment. */
  predicate MayRecoverResumed(cfg: Config, p: Process) {
    || (p.run.state == Funding && p.c.settings.rollback != Manual) || (p.run.state == Funded && !cfg.gate)
    || ((p.stage.Clear? || p.stage.Refused?) && !cfg.gate)
  }

  /** The writes that end a run early. */
  ghost predicate Recovers(cfg: Config, p: Process, next: Run) {
    var same := Step(p.run, next.state).(lastError := next.lastError);
    var own := p.claimed || HasSettlementRef(p.run);
    match next.state
    case Failed =>
      && next == same && (HasSettlementRef(p.run) ==> p.c.settings.rollback == Manual || Stranger(p))
      && (Stranger(p) || (p.run.state !in {Recovering, RefundPending} && (own || MayFailResumed(p))))
    case Recovering => next == same && next.lastError == p.run.lastError && (own || MayRecoverResumed(cfg, p))
    case RefundPending => next == same && ((Reverses(p) && HasSettlementRef(p.run)) || p.entered == Recovering)
    case Refunded => next == same.(refundId := RefundIdAfter(p)) && RefundEvidence(p)
    case Held => next == same
    case _ => false
  }

  /** The writes a process may make. A reference in hand has to be recorded first, and a
      settlement that may be in flight is left alone unless it was found. */
  ghost predicate MayWrite(cfg: Config, p: Process, next: Run) {
    && p.stage != Lost
    && (Stranger(p) ==> next.state == Failed)
    && (p.stage.Holding? ==> next.state in {Verifying, Settling, Settled})
    && (!p.claimed && p.entered == Settling && p.run.state == Settling && !Stranger(p) ==> p.stage.Holding?)
    && (|| NotesDeposit(p, next)
        || (CanTransition(p.run.state, next.state)
            && (Prepares(cfg, p, next) || Advances(cfg, p, next) || Recovers(cfg, p, next))))
  }

  function StageAfterWrite(p: Process, to: State): Stage {
    if to in {Funding, Funded, Verifying} then p.stage
    else if to == Settling then (if p.claimed then Armed else p.stage)
    else Idle
  }

  function AfterWrite(p: Process, next: Run): Process {
    p.(run := next,
       attempt := if next.state == Retrying then p.attempt + 1 else p.attempt,
       stage := StageAfterWrite(p, next.state))
  }

  /** The gate is asked about a settleable quote, the one the run recorded. */
  predicate MayGate(cfg: Config, p: Process, q: Quote) {
    && p.claimed && Drawn(p)
    && (if p.run.state == Retrying then p.stage == Rested else p.run.state in {Opened, Funded} && p.stage == Idle)
    && !SettleQuoteProblem(q, p.c.settings)
    && p.run.settlementAmount == Some(q.amount)
    && p.run.quoteFirm == Some(q.firm) && p.run.quoteExpiresAt == Some(q.expiresAt)
  }

  ghost predicate MayFind(cfg: Config, p: Process, req: Request) {
    && cfg.canFind && req == RequestOf(p.run, p.c.settings)
    && (if p.claimed then p.run.state == Settling && p.stage == Armed
        else
          && !Repinned(p) && p.stage == Idle
          && p.run.state in {Opened, Funded, Retrying, Verifying, Settling}
          && (p.run.state == Settling ==> p.entered == Settling)
          && !(cfg.gate && p.run.state == Funded))
  }

  /** Paying needs `settling` on the row and, where the submitter can look, a look that found
      nothing. A resumed process never pays past a gate, nor from a settlement in flight. */
  ghost predicate MaySubmit(cfg: Config, p: Process, req: Request) {
    && p.run.state == Settling && p.run.settlementAmount.Some?
    && req == RequestOf(p.run, p.c.settings)
    && (if p.claimed then (p.stage == Armed && !cfg.canFind) || (p.stage.Clear? && p.stage.req == req)
        else !cfg.gate && !Repinned(p) && p.entered != Settling && p.stage.Clear? && p.stage.req == req)
  }

  function StageAfterSubmit(req: Request, fate: Fate): Stage {
    match fate
    case Accepted(ref) => Holding(req, ref)
    case Misreported(_, retryable) => Refused(retryable)
    case Rejected(retryable) => Refused(retryable)
    case Delayed(retryable) => Refused(retryable)
    case Hung => Lost
  }

  /** The settlement a refund reverses. */
  function OriginalOf(run: Run): Ref
    requires HasSettlementRef(run)
  {
    if run.settlementRef.Some? && run.settlementRef.value.Stellar? then run.settlementRef.value
    else if run.stellarTxHash.Some? then Stellar(run.stellarTxHash.value)
    else run.settlementRef.value
  }

  predicate IsOffChain(run: Run) {
    run.settlementKind == Some(OffChain) || (run.settlementRef.Some? && run.settlementRef.value.Adapter?)
  }

  /** Only for a recorded on-chain settlement, only in the process that started the recovery,
      only once, and only when no refund is on record. */
  predicate MayRefund(p: Process, call: RefundCall) {
    && Reverses(p) && p.run.state == Recovering && p.stage == Idle && !p.asked
    && HasSettlementRef(p.run) && !HasRequestedRefund(p.run) && !IsOffChain(p.run)
    && call.original == OriginalOf(p.run) && p.run.settlementAmount == Some(call.amount)
  }

  function Start(c: Corridor, dry: bool, claimed: bool, run: Run): Local {
    Live(Process(c, dry, claimed, run.state, run, 0, Idle, false, false))
  }

  /** The next state of a process, if it may take this event. */
  ghost function LocalNext(cfg: Config, lo: Local, e: Event): Option<Local> {
    match e
    case Boot(c, dry) => if Parsed(cfg.schema, c) then Some(Booted(c, dry)) else None
    case Land(_) => Some(lo)
    case Read(row) =>
      if !lo.Booted? then None
      else if row.None? then Some(Unclaimed(lo.c, lo.dry))
      else if IsTerminal(row.value.state) then Some(Off)
      else Some(Start(lo.c, lo.dry, false, row.value))
    case Claim(run, claimer, won) =>
      if !(lo.Unclaimed? && claimer == lo.c
           && run == NewRun(cfg.key, lo.c.settings.id, HashOf(lo.c), run.owner)) then None
      else if won then Some(Start(lo.c, lo.dry, true, run))
      else Some(Off)
    case _ =>
      if lo.Live? then
        var next := ProcessNext(cfg, lo.p, e);
        if next.Some? then Some(Live(next.value)) else None
      else None
  }

  ghost function ProcessNext(cfg: Config, p: Process, e: Event): Option<Process> {
    match e
    case Write(run) => if MayWrite(cfg, p, run) then Some(AfterWrite(p, run)) else None
    case Gate(q, skipped, passed) =>
      if MayGate(cfg, p, q) && skipped == !cfg.gate && (skipped ==> passed)
      then Some(p.(stage := Gated(passed, None))) else None
    case Clock(at) =>
      (match p.stage
       case Gated(passed, _) => Some(p.(stage := Gated(passed, Some(at))))
       case Clear(req, _) =>
         if p.claimed || p.run.state == Settling then None else Some(p.(stage := Clear(req, Some(at))))
       case _ => None)
    case Find(req, found) =>
      if MayFind(cfg, p, req)
      then Some(p.(stage := if found.Some? then Holding(req, found.value) else Clear(req, None)))
      else None
    case Submit(req, fate) =>
      if MaySubmit(cfg, p, req) then Some(p.(stage := StageAfterSubmit(req, fate))) else None
    case Confirm(reference, retryable) =>
      if p.claimed && p.run.state == Settling && p.stage == Armed
      then Some(p.(stage := if reference.Some?
                            then Holding(RequestOf(p.run, p.c.settings), Adapter(reference.value))
                            else Refused(retryable)))
      else None
    case Backoff(ms) =>
      if p.claimed && p.run.state == Retrying && p.stage == Idle && ms == BackoffMs(p.attempt)
      then Some(p.(stage := Rested)) else None
    case Reconcile(settled) =>
      if p.run.state == Settled && p.stage == Idle
      then Some(p.(stage := if settled then Confirmed else Idle)) else None
    case Refund(call, id) =>
      if MayRefund(p, call)
      then Some(p.(stage := if id.Some? then Returned(id.value) else Idle, asked := true))
      else None
    case WatchRefund(full, id) =>
      if p.run.state == RefundPending && p.stage == Idle
      then Some(p.(stage := if full then Reported(id) else Idle)) else None
    case Outcome(success) =>
      if cfg.health && IsTerminal(p.run.state) && !p.judged && success == (p.run.state == Completed)
      then Some(p.(judged := true)) else None
    case _ => None
  }

  // ----- The shared world -----------------------------------------------------------------

  datatype Shared = Shared(
    row: Option<Run>,
    pinned: Option<Corridor>,    // the corridor of the claim that won
    paid: seq<Payment>,          // what landed on the chain
    inflight: seq<Request>,      // submits that may still land
    submits: nat,
    accepted: nat,               // submits reported as successes
    retries: nat,
    slept: nat,                  // milliseconds of backoff
    refunds: seq<RefundCall>,
    outcomes: seq<bool>,
    confirmed: bool,             // the anchor has answered settled
    reported: bool)              // the anchor has reported a full refund

  const NOTHING := Shared(None, None, [], [], 0, 0, 0, 0, [], [], false, false)

  /** A truthful look-up: the reference of the first payment made for this very request. */
  function FirstPaid(paid: seq<Payment>, req: Request): (found: Option<Ref>)
    ensures found.Some? ==> exists p :: p in paid && p.req == req && p.ref == found.value
    ensures found.None? ==> forall p :: p in paid ==> p.req != req
  {
    if paid == [] then None
    else if paid[0].req == req then Some(paid[0].ref)
    else FirstPaid(paid[1..], req)
  }

  function AfterSubmit(sh: Shared, req: Request, fate: Fate): Shared {
    var sent := sh.(submits := sh.submits + 1);
    match fate
    case Accepted(ref) => sent.(paid := sh.paid + [Payment(req, ref)], accepted := sh.accepted + 1)
    case Misreported(ref, _) => sent.(paid := sh.paid + [Payment(req, ref)])
    case Rejected(_) => sent
    case Delayed(_) => sent.(inflight := sh.inflight + [req])
    case Hung => sent.(inflight := sh.inflight + [req])
  }

  /** What the submitter promises about its failures. */
  predicate MayEndAs(cfg: Config, fate: Fate) {
    match fate
    case Misreported(_, _) => cfg.misreports
    case Delayed(retryable) => if retryable then cfg.lateRetries else cfg.misreports
    case _ => true
  }

  /** A failure is the truth: nothing landed, and nothing will. */
  predicate Truthful(cfg: Config) {
    !cfg.misreports && !cfg.lateRetries
  }

  /** Before it pays again, a process can know what became of the last submit: no retryable
      failure lands late, and what has landed can be looked up or was reported. */
  predicate CanTell(cfg: Config) {
    !cfg.lateRetries && (cfg.canFind || !cfg.misreports)
  }

  /** The world after an event, if the world can answer like that. */
  ghost function SharedNext(cfg: Config, sh: Shared, e: Event): Option<Shared> {
    match e
    case Read(row) =>
      if row.Some? == sh.row.Some? && (row.Some? ==> row.value == Load(cfg.store, sh.row.value))
      then Some(sh) else None
    case Claim(run, claimer, won) =>
      if won != sh.row.None? then None
      else if won then Some(sh.(row := Some(run), pinned := Some(claimer)))
      else Some(sh)
    case Write(run) =>
      Some(sh.(row := Some(Put(cfg.store, sh.row, run)),
               retries := if run.state == Retrying then sh.retries + 1 else sh.retries))
    case Find(req, found) => if found == FirstPaid(sh.paid, req) then Some(sh) else None
    case Submit(req, fate) => if MayEndAs(cfg, fate) then Some(AfterSubmit(sh, req, fate)) else None
    case Land(ref) =>
      if sh.inflight == [] then None
      else Some(sh.(paid := sh.paid + [Payment(sh.inflight[0], ref)], inflight := sh.inflight[1..]))
    case Backoff(ms) => Some(sh.(slept := sh.slept + ms))
    case Reconcile(settled) => Some(sh.(confirmed := sh.confirmed || settled))
    case Refund(call, _) => Some(sh.(refunds := sh.refunds + [call]))
    case WatchRefund(full, _) => Some(sh.(reported := sh.reported || full))
    case Outcome(success) => Some(sh.(outcomes := sh.outcomes + [success]))
    case _ => Some(sh)
  }

  // ----- Histories of one worker at a time ---------------------------------------------------

  datatype Sys = Sys(sh: Shared, lo: Local)

  const INIT := Sys(NOTHING, Off)

  ghost function Next(cfg: Config, s: Sys, e: Event): Option<Sys> {
    var lo := LocalNext(cfg, s.lo, e);
    var sh := SharedNext(cfg, s.sh, e);
    if lo.Some? && sh.Some? then Some(Sys(sh.value, lo.value)) else None
  }

  /** Where a history leads: any number of processes one after the other, each stopping
      wherever the next `Boot` interrupts it. None: not a history that can happen. */
  ghost function After(cfg: Config, history: seq<Event>): Option<Sys> {
    if history == [] then Some(INIT)
    else
      var n := |history| - 1;
      var before := After(cfg, history[..n]);
      if before.Some? then Next(cfg, before.value, history[n]) else None
  }

  /** Event `i` of the history led from one recorded state to the next. */
  ghost predicate Joined(cfg: Config, states: seq<Sys>, trace: seq<Event>, i: nat) {
    |states| == |trace| + 1 && i < |trace| && Next(cfg, states[i], trace[i]) == Some(states[i + 1])
  }

  ghost predicate Possible(cfg: Config, states: seq<Sys>, trace: seq<Event>, now: Sys) {
    && |states| == |trace| + 1 && states[0] == INIT && states[|trace|] == now
    && forall i | 0 <= i < |trace| :: Joined(cfg, states, trace, i)
  }

  /** A history recorded state by state is one that can happen. */
  lemma {:induction false} PossibleHappens(cfg: Config, states: seq<Sys>, trace: seq<Event>, now: Sys)
    requires Possible(cfg, states, trace, now)
    ensures After(cfg, trace) == Some(now)
    decreases |trace|
  {
    if trace != [] {
      var n := |trace| - 1;
      var states', trace' := states[..n + 1], trace[..n];
      forall i | 0 <= i < n ensures Joined(cfg, states', trace', i) {
        assert Joined(cfg, states, trace, i);
      }
      PossibleHappens(cfg, states', trace', states[n]);
      assert Joined(cfg, states, trace, n);
    }
  }

  lemma {:induction false} HappensIsPossible(cfg: Config, trace: seq<Event>) returns (states: seq<Sys>)
    requires After(cfg, trace).Some?
    ensures Possible(cfg, states, trace, After(cfg, trace).value)
  {
    if trace == [] {
      states := [INIT];
    } else {
      var n := |trace| - 1;
      var before := HappensIsPossible(cfg, trace[..n]);
      states := before + [After(cfg, trace).value];
      forall i | 0 <= i < |trace| ensures Joined(cfg, states, trace, i) {
        if i < n { assert Joined(cfg, before, trace[..n], i); }
      }
    }
  }

  /** The history can happen, and leads here. */
  ghost predicate LeadsTo(cfg: Config, history: seq<Event>, s: Sys) {
    exists states: seq<Sys> :: Possible(cfg, states, history, s)
  }

  /** Recorded state by state or folded event by event, histories are the same. */
  lemma LeadingIsHappening(cfg: Config, history: seq<Event>, s: Sys)
    ensures LeadsTo(cfg, history, s) <==> After(cfg, history) == Some(s)
  {
    if LeadsTo(cfg, history, s) {
      var states: seq<Sys> :| Possible(cfg, states, history, s);
      PossibleHappens(cfg, states, history, s);
    }
    if After(cfg, history) == Some(s) {
      var states := HappensIsPossible(cfg, history);
    }
  }

  /** Stopping is always possible: what can happen can also stop short. */
  lemma {:induction false} MayStopAnywhere(cfg: Config, history: seq<Event>, k: nat)
    requires After(cfg, history).Some? && k <= |history|
    ensures After(cfg, history[..k]).Some?
  {
    if k < |history| {
      assert history[..|history| - 1][..k] == history[..k];
      MayStopAnywhere(cfg, history[..|history| - 1], k);
    } else {
      assert history[..k] == history;
    }
  }

  lemma OneMore(cfg: Config, history: seq<Event>, e: Event)
    requires After(cfg, history).Some?
    ensures After(cfg, history + [e]) == Next(cfg, After(cfg, history).value, e)
  {
    assert (history + [e])[..|history|] == history;
  }

}
