/**
 * Everything outside the engine. `World` is the durable row and the chain, and keeps the
 * history of what was done; `Ports` are the adapters, whose answers can be anything.
 */
module Outside {
  import opened Prelude
  import opened States
  import opened Runs
  import opened Stores
  import opened Protocol

  datatype Answer<+T> = Ok(value: T) | Err(error: Error)

  datatype Route = Route(
    attested: bool, hasSending: bool, compatible: bool, nativeQuotes: bool, kycNone: bool)

  datatype Instructions = StellarPayment | ClaimableBalance | AdapterSettled

  /** An opened receiving transaction, with its deposit fields flattened by `toLegacy`. */
  datatype Transaction = Transaction(
    transactionId: string, instructions: Instructions,
    depositAddress: Option<string>, memo: Option<string>, memoType: Option<MemoType>)

  /** What the adapters, the resolver and the clock answered last, `verified` being the chain's word
      on the settlement, if it was asked; `smooth` as long as every answer was the one hoped for. */
  datatype Dealings = Dealings(
    route: Option<Route>, quote: Option<Quote>, complied: bool, transaction: Option<Transaction>,
    depositId: Option<string>, deposited: bool, verified: Option<bool>, smooth: bool)

  const UNDEALT := Dealings(None, None, false, None, None, false, None, true)

  /** Adapters, resolver and clock: each call may answer anything. `calls` counts what the
      resolver and the adapters were asked. */
  class Ports {
    ghost var seen: Dealings
    ghost var calls: nat

    constructor () {}

    /** A call begins: nothing has been dealt with yet. */
    method Open()
      modifies this
      ensures seen == UNDEALT && calls == 0
    {
      seen, calls := UNDEALT, 0;
    }

    method Resolve(ghost fits: Route -> bool) returns (route: Option<Route>)
      modifies this
      ensures calls == old(calls) + 1
      ensures seen == old(seen).(route := route, smooth := old(seen.smooth) && route.Some? && fits(route.value))
    {
      route := *;
      calls := calls + 1;
      seen := seen.(route := route, smooth := seen.smooth && route.Some? && fits(route.value));
    }

    /** The clock, read to see whether it is still before `limit`. */
    method Now(ghost limit: int) returns (at: int)
      modifies this
      ensures seen == old(seen).(smooth := old(seen.smooth) && at < limit)
    {
      at := *;
      seen := seen.(smooth := seen.smooth && at < limit);
    }

    /** The clock plus the corridor's timeout. */
    method Deadline() returns (at: int) { at := *; }

    /** The code of the first pre-settle check that failed, if one did. */
    method GateCode() returns (code: Code) { code := *; }

    method RequestQuote(ghost fits: Quote -> bool) returns (q: Answer<Quote>)
      modifies this
      ensures calls == old(calls) + 1
      ensures seen == old(seen).(quote := Got(q), smooth := old(seen.smooth) && q.Ok? && fits(q.value))
    {
      q := *;
      calls := calls + 1;
      seen := seen.(quote := Got(q), smooth := seen.smooth && q.Ok? && fits(q.value));
    }

    method EnsureCompliance() returns (problem: Option<Error>)
      modifies this
      ensures calls == old(calls) + 1
      ensures seen == old(seen).(complied := problem.None?, smooth := old(seen.smooth) && problem.None?)
    {
      problem := *;
      calls := calls + 1;
      seen := seen.(complied := problem.None?, smooth := seen.smooth && problem.None?);
    }

    method OpenTransaction(ghost fits: Transaction -> bool) returns (tx: Answer<Transaction>)
      modifies this
      ensures calls == old(calls) + 1
      ensures seen == old(seen).(transaction := Got(tx), smooth := old(seen.smooth) && tx.Ok? && fits(tx.value))
    {
      tx := *;
      calls := calls + 1;
      seen := seen.(transaction := Got(tx), smooth := seen.smooth && tx.Ok? && fits(tx.value));
    }

    /** An accepted deposit has a name. */
    method OpenDeposit() returns (id: Answer<string>)
      modifies this
      ensures id.Ok? ==> id.value != ""
      ensures calls == old(calls) + 1
      ensures seen == old(seen).(depositId := Got(id), smooth := old(seen.smooth) && id.Ok?)
    {
      id := *;
      if id == Ok("") { id := Err(Fail(AnchorUnavailable, "deposit without an id")); }
      calls := calls + 1;
      seen := seen.(depositId := Got(id), smooth := seen.smooth && id.Ok?);
    }

    method WaitForDeposit() returns (problem: Option<Error>)
      modifies this
      ensures calls == old(calls) + 1
      ensures seen == old(seen).(deposited := problem.None?, smooth := old(seen.smooth) && problem.None?)
    {
      problem := *;
      calls := calls + 1;
      seen := seen.(deposited := problem.None?, smooth := seen.smooth && problem.None?);
    }

    method VerifyOnChain() returns (problem: Option<Error>)
      modifies this
      ensures calls == old(calls) + 1
      ensures seen == old(seen).(verified := Some(problem.None?), smooth := old(seen.smooth) && problem.None?)
    {
      problem := *;
      calls := calls + 1;
      seen := seen.(verified := Some(problem.None?), smooth := seen.smooth && problem.None?);
    }
  }

  function Got<T>(answer: Answer<T>): Option<T> {
    match answer
    case Ok(value) => Some(value)
    case Err(_) => None
  }

  lemma OneMorePossible(cfg: Config, states: seq<Sys>, trace: seq<Event>, now: Sys, e: Event)
    requires Possible(cfg, states, trace, now) && Next(cfg, now, e).Some?
    ensures var next := Next(cfg, now, e).value;
            Possible(cfg, states + [next], trace + [e], next)
  {
    var next := Next(cfg, now, e).value;
    forall i | 0 <= i < |trace + [e]| ensures Joined(cfg, states + [next], trace + [e], i) {
      if i < |trace| { assert Joined(cfg, states, trace, i); }
    }
  }

  /** The first payment for a request stays the first. */
  lemma {:induction false} FirstStaysFirst(paid: seq<Payment>, more: seq<Payment>, req: Request)
    requires paid <= more
    ensures FirstPaid(paid, req).Some? ==> FirstPaid(more, req) == FirstPaid(paid, req)
  {
    if paid != [] { FirstStaysFirst(paid[1..], more[1..], req); }
  }

  class World {
    const cfg: Config
    var row: Option<Run>
    var paid: seq<Payment>
    var inflight: seq<Request>   // submits that may still land
    ghost var sys: Sys
    ghost var trace: seq<Event>
    ghost var states: seq<Sys>
    ghost var smooth: bool    // every answer so far was the one hoped for

    /** The history is one that can happen, and it led here. */
    ghost predicate Valid()
      reads this
    {
      && Possible(cfg, states, trace, sys)
      && sys.sh.row == row && sys.sh.paid == paid && sys.sh.inflight == inflight
    }

    /** What was asked of the submitter's refunds and told to the breaker. */
    ghost function Books(): (seq<RefundCall>, seq<bool>)
      reads this
    {
      (sys.sh.refunds, sys.sh.outcomes)
    }

    /** One event happened, the process now stands as `lo`, and the answer was as hoped or not. */
    twostate predicate Took(e: Event, lo: Local, hoped: bool)
      reads this
    {
      Valid() && trace == old(trace) + [e] && sys.lo == lo && smooth == (old(smooth) && hoped)
    }

    constructor (cfg: Config)
      ensures this.cfg == cfg && Valid() && trace == [] && row.None? && paid == [] && inflight == []
    {
      this.cfg := cfg;
      row, paid, inflight, sys, trace, states, smooth := None, [], [], INIT, [], [INIT], true;
    }

    /** The world as any history leaves it: where the next process finds it after a crash. */
    constructor At(cfg: Config, row: Option<Run>, paid: seq<Payment>, inflight: seq<Request>, ghost history: seq<Event>)
      requires After(cfg, history).Some?
      requires var sh := After(cfg, history).value.sh; sh.row == row && sh.paid == paid && sh.inflight == inflight
      ensures this.cfg == cfg && Valid() && trace == history
      ensures this.row == row && this.paid == paid && this.inflight == inflight
    {
      this.cfg, this.row, this.paid, this.inflight := cfg, row, paid, inflight;
      sys, trace, smooth := After(cfg, history).value, history, true;
      ghost var all := HappensIsPossible(cfg, history);
      states := all;
    }

    ghost method Record(e: Event)
      requires Possible(cfg, states, trace, sys) && Next(cfg, sys, e).Some?
      modifies this`sys, this`trace, this`states
      ensures Possible(cfg, states, trace, sys) && trace == old(trace) + [e]
      ensures Next(cfg, old(sys), e) == Some(sys)
    {
      OneMorePossible(cfg, states, trace, sys, e);
      sys := Next(cfg, sys, e).value;
      trace := trace + [e];
      states := states + [sys];
    }

    /** A process starts: whatever the previous one knew is gone. */
    method Boot(c: Corridor, dry: bool)
      requires Valid() && Parsed(cfg.schema, c)
      modifies this
      ensures Valid() && trace == old(trace) + [Event.Boot(c, dry)] && sys.lo == Booted(c, dry) && smooth
      ensures row == old(row) && paid == old(paid) && Books() == old(Books())
    {
      Record(Event.Boot(c, dry));
      smooth := true;
    }

    method Get() returns (run: Option<Run>)
      requires Valid() && sys.lo.Booted?
      modifies this
      ensures row == old(row) && paid == old(paid) && Books() == old(Books()) && run.Some? == row.Some?
      ensures run.None? ==> Took(Read(run), Unclaimed(old(sys.lo.c), old(sys.lo.dry)), true)
      ensures run.Some? && IsTerminal(run.value.state) ==> Took(Read(run), Off, true)
      ensures run.Some? && !IsTerminal(run.value.state) ==>
                Took(Read(run), Start(old(sys.lo.c), old(sys.lo.dry), false, run.value), true)
      ensures run.Some? ==> run.value == Load(cfg.store, row.value)
    {
      run := if row.Some? then Some(Load(cfg.store, row.value)) else None;
      Record(Read(run));
    }

    method Create(run: Run, c: Corridor) returns (won: bool)
      requires Valid() && LocalNext(cfg, sys.lo, Claim(run, c, true)).Some?
      modifies this
      ensures won == old(row).None?
      ensures Took(Claim(run, c, won), if won then Start(c, old(sys.lo.dry), true, run) else Off, true)
    {
      won := row.None?;
      Record(Claim(run, c, won));
      if won { row := Some(run); }
    }

    method PutRun(run: Run)
      requires Valid() && sys.lo.Live? && MayWrite(cfg, sys.lo.p, run)
      modifies this
      ensures Took(Write(run), Live(AfterWrite(old(sys.lo.p), run)), true) && Books() == old(Books())
    {
      Record(Write(run));
      row := Some(Put(cfg.store, row, run));
    }

    /** The gate, or the explicit skip that stands in for it. */
    method Evaluate(q: Quote) returns (passed: bool)
      requires Valid() && sys.lo.Live? && MayGate(cfg, sys.lo.p, q)
      modifies this
      ensures Took(Gate(q, !cfg.gate, passed), Live(old(sys.lo.p).(stage := Gated(passed, None))), passed)
      ensures !cfg.gate ==> passed
    {
      passed := *;
      if !cfg.gate { passed := true; }
      Record(Gate(q, !cfg.gate, passed));
      smooth := smooth && passed;
    }

    method ReadClock(ghost limit: int) returns (at: int)
      requires Valid() && sys.lo.Live? && (sys.lo.p.stage.Gated? || sys.lo.p.stage.Clear?)
      requires sys.lo.p.stage.Clear? ==> !sys.lo.p.claimed && sys.lo.p.run.state != Settling
      modifies this
      ensures old(sys.lo.p.stage.Gated?) ==>
                Took(Clock(at), Live(old(sys.lo.p).(stage := Gated(old(sys.lo.p.stage.passed), Some(at)))), at < limit)
      ensures old(sys.lo.p.stage.Clear?) ==>
                Took(Clock(at), Live(old(sys.lo.p).(stage := Clear(old(sys.lo.p.stage.req), Some(at)))), at < limit)
    {
      at := *;
      Record(Clock(at));
      smooth := smooth && at < limit;
    }

    /** Some of the payments under way reach the chain. */
    method Arrive()
      requires Valid()
      modifies this
      ensures Valid() && sys.lo == old(sys.lo) && smooth == old(smooth) && Books() == old(Books())
      ensures row == old(row) && old(paid) <= paid && old(trace) <= trace
      ensures |paid| + |inflight| == |old(paid)| + |old(inflight)|
    {
      var few: nat := *;
      while few > 0 && inflight != []
        invariant Valid() && sys.lo == old(sys.lo) && smooth == old(smooth) && Books() == old(Books())
        invariant row == old(row) && old(paid) <= paid && old(trace) <= trace
        invariant |paid| + |inflight| == |old(paid)| + |old(inflight)|
      {
        var ref: Ref := *;
        Record(Land(ref));
        paid, inflight := paid + [Payment(inflight[0], ref)], inflight[1..];
        few := few - 1;
      }
    }

    /** `findExisting`: a failed call tells nothing; an answered one is the truth by then. */
    method FindExisting(req: Request) returns (found: Answer<Option<Ref>>)
      requires Valid() && sys.lo.Live? && MayFind(cfg, sys.lo.p, req)
      modifies this
      ensures found.Ok? ==>
                && Valid() && old(trace) < trace && smooth == old(smooth) && Books() == old(Books())
                && sys.lo == Live(old(sys.lo.p).(stage := if found.value.Some? then Holding(req, found.value.value)
                                                          else Clear(req, None)))
                && trace[|trace| - 1] == Find(req, found.value) && found.value == FirstPaid(paid, req)
                && old(paid) <= paid
                && (FirstPaid(old(paid), req).Some? ==> found.value == FirstPaid(old(paid), req))
      ensures found.Err? ==> Valid() && sys == old(sys) && trace == old(trace) && !smooth
    {
      found := *;
      if found.Ok? {
        Arrive();
        FirstStaysFirst(old(paid), paid, req);
        found := Ok(FirstPaid(paid, req));
        Record(Find(req, found.value));
      } else {
        smooth := false;
      }
    }

    /** `submit`: it may pay or not, now or later, and may report what happened or the opposite,
        as far as the submitter's promises let it. */
    method SubmitPayment(req: Request) returns (reply: Answer<Ref>)
      requires Valid() && sys.lo.Live? && MaySubmit(cfg, sys.lo.p, req)
      modifies this
      ensures Valid() && old(trace) < trace && smooth == (old(smooth) && reply.Ok?)
      ensures reply.Ok? ==> sys.lo == Live(old(sys.lo.p).(stage := Holding(req, reply.value)))
                            && paid == old(paid) + [Payment(req, reply.value)]
      ensures reply.Err? ==> sys.lo == Live(old(sys.lo.p).(stage := Refused(reply.error.retryable)))
      ensures reply.Err? ==> FailureMeans(req, reply.error.retryable)
    {
      reply := *;
      match reply
      case Ok(ref) =>
        Record(Submit(req, Accepted(ref)));
        paid := paid + [Payment(req, ref)];
      case Err(error) => RefusePayment(req, error.retryable);
    }

    /** What a reported failure means for the payments: nothing landed and nothing will, unless the
        submitter promises less. */
    twostate predicate FailureMeans(req: Request, retryable: bool)
      reads this
    {
      || (paid == old(paid) && inflight == old(inflight))
      || (cfg.misreports && inflight == old(inflight) && exists ref :: paid == old(paid) + [Payment(req, ref)])
      || (MayEndAs(cfg, Delayed(retryable)) && paid == old(paid) && inflight == old(inflight) + [req])
    }

    method RefusePayment(req: Request, retryable: bool)
      requires Valid() && sys.lo.Live? && MaySubmit(cfg, sys.lo.p, req)
      modifies this
      ensures Valid() && old(trace) < trace && !smooth && FailureMeans(req, retryable)
      ensures sys.lo == Live(old(sys.lo.p).(stage := Refused(retryable)))
    {
      var lands: bool, late: bool, ref: Ref := *, *, *;
      smooth := false;
      if lands && cfg.misreports {
        Record(Submit(req, Misreported(ref, retryable)));
        paid := paid + [Payment(req, ref)];
      } else if late && MayEndAs(cfg, Delayed(retryable)) {
        Record(Submit(req, Delayed(retryable)));
        inflight := inflight + [req];
      } else {
        Record(Submit(req, Rejected(retryable)));
      }
    }

    /** `confirmSettlement`, or the reference the instructions came with. */
    method ConfirmSettlement() returns (reply: Answer<Ref>)
      requires Valid() && sys.lo.Live?
      requires sys.lo.p.claimed && sys.lo.p.run.state == Settling && sys.lo.p.stage == Armed
      modifies this
      ensures Valid() && old(trace) < trace && smooth == (old(smooth) && reply.Ok?)
      ensures reply.Ok? ==>
                reply.value.Adapter? && sys.lo == Live(old(sys.lo.p).(stage :=
                  Holding(RequestOf(old(sys.lo.p.run), old(sys.lo.p.c.settings)), reply.value)))
      ensures reply.Err? ==> sys.lo == Live(old(sys.lo.p).(stage := Refused(reply.error.retryable)))
    {
      var ok: bool, reference: string, error: Error := *, *, *;
      smooth := smooth && ok;
      if ok {
        Record(Confirm(Some(reference), false));
        reply := Ok(Adapter(reference));
      } else {
        Record(Confirm(None, error.retryable));
        reply := Err(error);
      }
    }

    method Sleep(attempt: nat)
      requires Valid() && sys.lo.Live?
      requires sys.lo.p.claimed && sys.lo.p.run.state == Retrying && sys.lo.p.stage == Idle
      requires sys.lo.p.attempt == attempt
      modifies this
      ensures Took(Backoff(BackoffMs(attempt)), Live(old(sys.lo.p).(stage := Rested)), true)
    {
      Record(Backoff(BackoffMs(attempt)));
    }

    /** The reconcile loop, as its verdict. */
    method Reconciled() returns (problem: Option<Error>)
      requires Valid() && sys.lo.Live? && sys.lo.p.run.state == Settled && sys.lo.p.stage == Idle
      modifies this
      ensures Took(Reconcile(problem.None?),
                   Live(old(sys.lo.p).(stage := if problem.None? then Confirmed else Idle)), problem.None?)
    {
      problem := *;
      Record(Reconcile(problem.None?));
      smooth := smooth && problem.None?;
    }

    /** `submitter.refund`: the reference of the refund, or a refusal. */
    method RequestRefund(call: RefundCall) returns (id: Answer<string>)
      requires Valid() && sys.lo.Live? && MayRefund(sys.lo.p, call)
      modifies this
      ensures Took(Refund(call, if id.Ok? then Some(id.value) else None),
                   Live(old(sys.lo.p).(stage := if id.Ok? then Returned(id.value) else Idle, asked := true)), id.Ok?)
      ensures Books() == (old(Books()).0 + [call], old(Books()).1)
    {
      id := *;
      Record(Refund(call, if id.Ok? then Some(id.value) else None));
      smooth := smooth && id.Ok?;
    }

    /** The refund watch, as its verdict: a full refund with the anchor's payment id, if it
        names one, or the reason to stop watching. */
    method Watch() returns (report: Answer<Option<string>>)
      requires Valid() && sys.lo.Live? && sys.lo.p.run.state == RefundPending && sys.lo.p.stage == Idle
      modifies this
      ensures Took(WatchRefund(report.Ok?, if report.Ok? then report.value else None),
                   Live(old(sys.lo.p).(stage := if report.Ok? then Reported(report.value) else Idle)), report.Ok?)
      ensures Books() == old(Books())
    {
      report := *;
      Record(WatchRefund(report.Ok?, if report.Ok? then report.value else None));
      smooth := smooth && report.Ok?;
    }

    method Judge(success: bool)
      requires Valid() && sys.lo.Live? && cfg.health && IsTerminal(sys.lo.p.run.state)
      requires !sys.lo.p.judged && success == (sys.lo.p.run.state == Completed)
      modifies this
      ensures Took(Outcome(success), Live(old(sys.lo.p).(judged := true)), true)
      ensures Books() == (old(Books()).0, old(Books()).1 + [success])
    {
      Record(Outcome(success));
    }
  }
}
