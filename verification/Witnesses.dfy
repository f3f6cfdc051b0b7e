/**
 * Histories that show the conditions of the safety results are needed, and with them the exact
 * conditions. Every step is one that `execute` takes, with answers the ports are free to give.
 */
module Witnesses {
  import opened Prelude
  import opened States
  import opened Runs
  import opened Stores
  import opened Protocol
  import opened OneWorker
  import Checked
  import Safety

  // ----- Building histories ------------------------------------------------------------------

  /** A corridor the default strategies settle, prefunded or drawn from a source deposit. */
  ghost predicate Plain(cfg: Config, c: Corridor) {
    Parsed(cfg.schema, c) && !NeedsPathPayment(c.settings)
  }

  /** When the quote of these histories lapses, and when their clocks are read before that. */
  const DEADLINE := 100
  const EARLY := 1

  function AQuote(c: Corridor): Quote {
    Quote("q", DEADLINE, true, c.settings.asset, 1)
  }

  /** The run was quoted `AQuote`. */
  predicate WithTheQuote(run: Run) {
    run.settlementAmount == Some(1) && run.quoteFirm == Some(true) && run.quoteExpiresAt == Some(DEADLINE)
  }

  ghost function AnOpenedRun(cfg: Config, c: Corridor): Run {
    NewRun(cfg.key, c.settings.id, HashOf(c), None).(
      state := Opened, version := 3, quoteId := Some("q"), quoteExpiresAt := Some(DEADLINE), quoteFirm := Some(true),
      settlementAmount := Some(1), transactionId := Some("t"), depositAddress := Some("d"))
  }

  ghost function OpenedSys(cfg: Config, c: Corridor, dry: bool): Sys {
    var run := AnOpenedRun(cfg, c);
    Sys(NOTHING.(row := Some(run), pinned := Some(c)),
        Live(Process(c, dry, true, Created, run, 0, Idle, false, false)))
  }

  /** Every process of the history was called like this. */
  predicate Calls(h: seq<Event>, c: Corridor, dry: bool) {
    forall e :: e in h && e.Boot? ==> e == Boot(c, dry)
  }

  /** The history of one process. */
  predicate Once(h: seq<Event>) {
    h != [] && h[0].Boot? && forall i | 0 < i < |h| :: !h[i].Boot?
  }

  /** The later history goes on where the first one stops, with no new process. */
  predicate Extends(h: seq<Event>, h': seq<Event>) {
    h <= h' && (Once(h) ==> Once(h'))
  }

  lemma ExtendsOn(h: seq<Event>, h1: seq<Event>, h2: seq<Event>)
    requires Extends(h, h1) && Extends(h1, h2)
    ensures Extends(h, h2)
  {
  }

  /** A live process whose copy of the row is the row. */
  ghost predicate AtWork(cfg: Config, h: seq<Event>, s: Sys) {
    && After(cfg, h) == Some(s) && s.lo.Live? && Calls(h, s.lo.p.c, s.lo.p.dry)
    && s.sh.row == Some(s.lo.p.run) && Shaped(s.lo.p.run)
  }

  lemma Takes(cfg: Config, h: seq<Event>, s: Sys, e: Event) returns (h': seq<Event>, s': Sys)
    requires AtWork(cfg, h, s) && Next(cfg, s, e).Some? && !e.Write? && !e.Boot? && !e.Land?
    ensures h' == h + [e] && AtWork(cfg, h', s') && s' == Next(cfg, s, e).value && Extends(h, h')
    ensures s'.lo.p == ProcessNext(cfg, s.lo.p, e).value && s'.sh == SharedNext(cfg, s.sh, e).value
    ensures s'.sh.row == s.sh.row && s'.lo.p.c == s.lo.p.c && s'.lo.p.dry == s.lo.p.dry
  {
    OneMore(cfg, h, e);
    TakenAlone(cfg, s, e);
    h', s' := h + [e], Next(cfg, s, e).value;
    GoesOn(h, e, s.lo.p.c, s.lo.p.dry);
  }

  lemma TakenAlone(cfg: Config, s: Sys, e: Event)
    requires s.lo.Live? && Next(cfg, s, e).Some? && !e.Write? && !e.Boot? && !e.Land?
    ensures ProcessNext(cfg, s.lo.p, e).Some? && SharedNext(cfg, s.sh, e).Some?
    ensures var p', sh' := ProcessNext(cfg, s.lo.p, e).value, SharedNext(cfg, s.sh, e).value;
            && Next(cfg, s, e) == Some(Sys(sh', Live(p')))
            && sh'.row == s.sh.row && p'.run == s.lo.p.run && p'.c == s.lo.p.c && p'.dry == s.lo.p.dry
  {
    OnlyWritesMoveTheRow(cfg, s, e);
  }

  lemma GoesOn(h: seq<Event>, e: Event, c: Corridor, dry: bool)
    requires !e.Boot? && Calls(h, c, dry)
    ensures Calls(h + [e], c, dry) && (Once(h) ==> Once(h + [e]))
  {
  }

  lemma Writes(cfg: Config, h: seq<Event>, s: Sys, run: Run) returns (h': seq<Event>, s': Sys)
    requires AtWork(cfg, h, s) && MayWrite(cfg, s.lo.p, run)
    ensures h' == h + [Write(run)] && AtWork(cfg, h', s') && Extends(h, h')
    ensures s' == Sys(s.sh.(row := Some(run),
                            retries := if run.state == Retrying then s.sh.retries + 1 else s.sh.retries),
                      Live(AfterWrite(s.lo.p, run)))
  {
    WritesAreKept(cfg, s.lo.p, run);
    OneMore(cfg, h, Write(run));
    h' := h + [Write(run)];
    s' := After(cfg, h').value;
  }

  lemma Claiming(cfg: Config, c: Corridor, dry: bool) returns (h: seq<Event>)
    requires Parsed(cfg.schema, c)
    ensures AtWork(cfg, h, ClaimedSys(cfg, c, dry)) && Once(h)
  {
    var run := NewRun(cfg.key, c.settings.id, HashOf(c), None);
    h := FindsNoRow(cfg, c, dry);
    OneMore(cfg, h, Claim(run, c, true));
    ClaimIsOpen(cfg, c, dry, run);
    h := h + [Claim(run, c, true)];
  }

  lemma FindsNoRow(cfg: Config, c: Corridor, dry: bool) returns (h: seq<Event>)
    requires Parsed(cfg.schema, c)
    ensures After(cfg, h) == Some(Sys(NOTHING, Unclaimed(c, dry))) && Once(h) && Calls(h, c, dry)
  {
    OneMore(cfg, [], Boot(c, dry));
    assert [] + [Boot(c, dry)] == [Boot(c, dry)];
    OneMore(cfg, [Boot(c, dry)], Read(None));
    h := [Boot(c, dry)] + [Read(None)];
  }

  lemma ClaimIsOpen(cfg: Config, c: Corridor, dry: bool, run: Run)
    requires run == NewRun(cfg.key, c.settings.id, HashOf(c), None)
    ensures Next(cfg, Sys(NOTHING, Unclaimed(c, dry)), Claim(run, c, true)) == Some(ClaimedSys(cfg, c, dry))
    ensures Shaped(run)
  {
  }

  /** A process that has just claimed the key. */
  ghost function ClaimedSys(cfg: Config, c: Corridor, dry: bool): Sys {
    var run := NewRun(cfg.key, c.settings.id, HashOf(c), None);
    Sys(NOTHING.(row := Some(run), pinned := Some(c)), Start(c, dry, true, run))
  }

  lemma Opening(cfg: Config, c: Corridor, dry: bool) returns (h: seq<Event>)
    requires Parsed(cfg.schema, c)
    ensures AtWork(cfg, h, OpenedSys(cfg, c, dry)) && Once(h)
  {
    h := Claiming(cfg, c, dry);
    h := Opens(cfg, c, dry, h);
  }

  lemma Opens(cfg: Config, c: Corridor, dry: bool, h: seq<Event>) returns (h': seq<Event>)
    requires AtWork(cfg, h, ClaimedSys(cfg, c, dry))
    ensures AtWork(cfg, h', OpenedSys(cfg, c, dry)) && Extends(h, h')
  {
    var s := ClaimedSys(cfg, c, dry);
    var r1 := Step(s.lo.p.run, Quoted).(quoteId := Some("q"), quoteExpiresAt := Some(DEADLINE),
                                        quoteFirm := Some(true), settlementAmount := Some(1));
    h', s := Writes(cfg, h, s, r1);
    var r2 := Step(r1, Compliant);
    h', s := Writes(cfg, h', s, r2);
    var r3 := Step(r2, Opened).(transactionId := Some("t"), depositAddress := Some("d"));
    h', s := Writes(cfg, h', s, r3);
    assert r3 == AnOpenedRun(cfg, c);
  }

  /** The run once its source deposit has arrived, where the corridor draws one. */
  ghost function AReadyRun(cfg: Config, c: Corridor): Run {
    var run := AnOpenedRun(cfg, c);
    if c.settings.prefunded then run else Deposited(run)
  }

  function Deposited(run: Run): Run {
    run.(state := Funded, version := run.version + 3, sourceTransactionId := Some("d"))
  }

  ghost function ReadySys(cfg: Config, c: Corridor): Sys {
    var run := AReadyRun(cfg, c);
    Sys(NOTHING.(row := Some(run), pinned := Some(c)),
        Live(Process(c, false, true, Created, run, 0, Idle, false, false)))
  }

  /** A process that may draw the source deposit. */
  ghost predicate Drawer(cfg: Config, p: Process) {
    && p.run.sourceTransactionId.None? && !p.c.settings.prefunded && !Stranger(p)
    && (if p.claimed then !p.dry && p.stage == Idle else p.stage.Clear? && !cfg.gate)
  }

  /** At `opened` it does. */
  lemma Draws(cfg: Config, h: seq<Event>, s: Sys) returns (h': seq<Event>, s': Sys)
    requires AtWork(cfg, h, s) && s.lo.p.run.state == Opened && Drawer(cfg, s.lo.p)
    ensures AtWork(cfg, h', s') && Extends(h, h')
    ensures s' == Sys(s.sh.(row := Some(Deposited(s.lo.p.run))), Live(s.lo.p.(run := Deposited(s.lo.p.run))))
  {
    var h1, s1 := OpensDeposit(cfg, h, s);
    h', s' := WriteFunded(cfg, h1, s1);
    ExtendsOn(h, h1, h');
  }

  lemma OpensDeposit(cfg: Config, h: seq<Event>, s: Sys) returns (h': seq<Event>, s': Sys)
    requires AtWork(cfg, h, s) && s.lo.p.run.state == Opened && Drawer(cfg, s.lo.p)
    ensures AtWork(cfg, h', s') && Extends(h, h')
    ensures var run := Step(Step(s.lo.p.run, Funding), Funding).(sourceTransactionId := Some("d"));
            s' == Sys(s.sh.(row := Some(run)), Live(s.lo.p.(run := run)))
  {
    var h1, s1 := WriteFunding(cfg, h, s);
    h', s' := NotesDepositId(cfg, h1, s1);
    ExtendsOn(h, h1, h');
  }

  lemma WriteFunding(cfg: Config, h: seq<Event>, s: Sys) returns (h': seq<Event>, s': Sys)
    requires AtWork(cfg, h, s) && s.lo.p.run.state == Opened && Drawer(cfg, s.lo.p)
    ensures AtWork(cfg, h', s') && Extends(h, h') && Drawer(cfg, s'.lo.p)
    ensures var run := Step(s.lo.p.run, Funding);
            s' == Sys(s.sh.(row := Some(run)), Live(s.lo.p.(run := run)))
  {
    h', s' := Writes(cfg, h, s, Step(s.lo.p.run, Funding));
  }

  lemma NotesDepositId(cfg: Config, h: seq<Event>, s: Sys) returns (h': seq<Event>, s': Sys)
    requires AtWork(cfg, h, s) && s.lo.p.run.state == Funding && Drawer(cfg, s.lo.p)
    ensures AtWork(cfg, h', s') && Extends(h, h')
    ensures var run := Step(s.lo.p.run, Funding).(sourceTransactionId := Some("d"));
            s' == Sys(s.sh.(row := Some(run)), Live(s.lo.p.(run := run)))
  {
    h', s' := Writes(cfg, h, s, Step(s.lo.p.run, Funding).(sourceTransactionId := Some("d")));
  }

  lemma WriteFunded(cfg: Config, h: seq<Event>, s: Sys) returns (h': seq<Event>, s': Sys)
    requires AtWork(cfg, h, s) && s.lo.p.run.state == Funding && s.lo.p.run.sourceTransactionId == Some("d")
    requires !Stranger(s.lo.p) && (s.lo.p.stage == Idle || s.lo.p.stage.Clear?)
    ensures AtWork(cfg, h', s') && Extends(h, h')
    ensures var run := Step(s.lo.p.run, Funded);
            s' == Sys(s.sh.(row := Some(run)), Live(s.lo.p.(run := run)))
  {
    h', s' := Writes(cfg, h, s, Step(s.lo.p.run, Funded));
  }

  /** A fresh process, ready for its gate. */
  lemma Readying(cfg: Config, c: Corridor) returns (h: seq<Event>)
    requires Parsed(cfg.schema, c)
    ensures AtWork(cfg, h, ReadySys(cfg, c)) && Once(h)
  {
    h := Claiming(cfg, c, false);
    h := Readies(cfg, c, h);
  }

  lemma Readies(cfg: Config, c: Corridor, h: seq<Event>) returns (h': seq<Event>)
    requires AtWork(cfg, h, ClaimedSys(cfg, c, false))
    ensures AtWork(cfg, h', ReadySys(cfg, c)) && Extends(h, h')
  {
    h' := Opens(cfg, c, false, h);
    if !c.settings.prefunded {
      var s: Sys;
      h', s := Draws(cfg, h', OpenedSys(cfg, c, false));
    }
  }

  /** A fresh process at the gate, with the quote `AQuote` on its row. */
  ghost predicate AtGate(s: Sys) {
    && s.lo.Live? && s.lo.p.claimed && !s.lo.p.dry && Drawn(s.lo.p) && WithTheQuote(s.lo.p.run)
    && (if s.lo.p.run.state == Retrying then s.lo.p.stage == Rested
        else s.lo.p.run.state in {Opened, Funded} && s.lo.p.stage == Idle)
  }

  lemma GateLets(cfg: Config, h: seq<Event>, s: Sys) returns (h': seq<Event>, s': Sys)
    requires AtWork(cfg, h, s) && AtGate(s)
    ensures AtWork(cfg, h', s') && Extends(h, h')
    ensures s' == Sys(s.sh, Live(s.lo.p.(stage := Gated(true, None))))
  {
    h', s' := Takes(cfg, h, s, Gate(AQuote(s.lo.p.c), !cfg.gate, true));
  }

  lemma WriteVerifying(cfg: Config, h: seq<Event>, s: Sys) returns (h': seq<Event>, s': Sys)
    requires AtWork(cfg, h, s) && s.lo.p.claimed && s.lo.p.stage.Gated?
    requires s.lo.p.run.state in {Retrying, Opened, Funded}
    ensures AtWork(cfg, h', s') && Extends(h, h')
    ensures var run := Step(s.lo.p.run, Verifying);
            s' == Sys(s.sh.(row := Some(run)), Live(s.lo.p.(run := run)))
  {
    h', s' := Writes(cfg, h, s, Step(s.lo.p.run, Verifying));
  }

  lemma WriteSettling(cfg: Config, h: seq<Event>, s: Sys) returns (h': seq<Event>, s': Sys)
    requires AtWork(cfg, h, s) && s.lo.p.claimed && !s.lo.p.dry && s.lo.p.run.state == Verifying
    requires s.lo.p.stage == Gated(true, Some(EARLY)) && WithTheQuote(s.lo.p.run)
    ensures AtWork(cfg, h', s') && Extends(h, h')
    ensures var run := Step(s.lo.p.run, Settling);
            s' == Sys(s.sh.(row := Some(run)), Live(s.lo.p.(run := run, stage := Armed)))
  {
    h', s' := Writes(cfg, h, s, Step(s.lo.p.run, Settling));
  }

  /** The gate passes, the quote still binds, and `settling` is written. */
  lemma ToSettling(cfg: Config, h: seq<Event>, s: Sys) returns (h': seq<Event>, s': Sys)
    requires AtWork(cfg, h, s) && AtGate(s)
    ensures AtWork(cfg, h', s') && Extends(h, h')
    ensures var run := Step(Step(s.lo.p.run, Verifying), Settling);
            s' == Sys(s.sh.(row := Some(run)), Live(s.lo.p.(run := run, stage := Armed)))
  {
    var h1, s1 := GateLets(cfg, h, s);
    var h2, s2 := WriteVerifying(cfg, h1, s1);
    var h3, s3 := ReadsClock(cfg, h2, s2);
    h', s' := WriteSettling(cfg, h3, s3);
    ExtendsOn(h, h1, h2);
    ExtendsOn(h, h2, h3);
    ExtendsOn(h, h3, h');
  }

  lemma ReadsClock(cfg: Config, h: seq<Event>, s: Sys) returns (h': seq<Event>, s': Sys)
    requires AtWork(cfg, h, s) && (s.lo.p.stage == Gated(true, None)
             || (s.lo.p.stage.Clear? && !s.lo.p.claimed && s.lo.p.run.state != Settling))
    ensures AtWork(cfg, h', s') && Extends(h, h')
    ensures s' == Sys(s.sh, Live(s.lo.p.(stage := if s.lo.p.stage.Gated? then Gated(true, Some(EARLY))
                                                  else Clear(s.lo.p.stage.req, Some(EARLY)))))
  {
    h', s' := Takes(cfg, h, s, Clock(EARLY));
  }

  // ----- At most one payment, exactly --------------------------------------------------------------

  /** Where the submitter can look, a process looks before it pays. */
  lemma Looks(cfg: Config, h: seq<Event>, s: Sys) returns (h': seq<Event>, s': Sys)
    requires AtWork(cfg, h, s) && s.lo.p.claimed && s.lo.p.run.state == Settling && s.lo.p.stage == Armed
    requires s.lo.p.run.settlementAmount.Some? && (cfg.canFind ==> s.sh.paid == [])
    ensures AtWork(cfg, h', s') && Extends(h, h')
    ensures var req := RequestOf(s.lo.p.run, s.lo.p.c.settings);
            && MaySubmit(cfg, s'.lo.p, req)
            && s' == Sys(s.sh, Live(s.lo.p.(stage := if cfg.canFind then Clear(req, None) else Armed)))
  {
    h', s' := h, s;
    if cfg.canFind { h', s' := Takes(cfg, h, s, Find(RequestOf(s.lo.p.run, s.lo.p.c.settings), None)); }
  }

  /** One pass of the loop up to the answer of its submit. */
  lemma Tries(cfg: Config, h: seq<Event>, s: Sys, fate: Fate) returns (h': seq<Event>, s': Sys)
    requires AtWork(cfg, h, s) && AtGate(s) && MayEndAs(cfg, fate) && (cfg.canFind ==> s.sh.paid == [])
    ensures AtWork(cfg, h', s') && Extends(h, h')
    ensures var run := Step(Step(s.lo.p.run, Verifying), Settling);
            var req := RequestOf(run, s.lo.p.c.settings);
            s' == Sys(AfterSubmit(s.sh.(row := Some(run)), req, fate),
                      Live(s.lo.p.(run := run, stage := StageAfterSubmit(req, fate))))
  {
    var h1, s1 := ToSettling(cfg, h, s);
    var h2, s2 := Looks(cfg, h1, s1);
    h', s' := Takes(cfg, h2, s2, Submit(RequestOf(s2.lo.p.run, s2.lo.p.c.settings), fate));
    ExtendsOn(h, h1, h2);
    ExtendsOn(h, h2, h');
  }

  /** A first submit that landed, or will, and is reported as a failure. */
  ghost predicate TriedOnce(cfg: Config, c: Corridor, fate: Fate, h: seq<Event>, s: Sys) {
    && AtWork(cfg, h, s) && Once(h) && s.lo.p.c == c && s.lo.p.claimed && !s.lo.p.dry && s.lo.p.attempt == 0
    && s.lo.p.run.state == Settling && s.lo.p.stage.Refused? && s.lo.p.entered == Created
    && WithTheQuote(s.lo.p.run) && Drawn(s.lo.p) && Unsettled(s.lo.p.run) && s.lo.p.run.refundId.None?
    && s.sh.pinned == Some(c) && s.sh.refunds == [] && !s.sh.reported
    && |s.sh.paid| == (if fate.Misreported? then 1 else 0)
    && |s.sh.inflight| == (if fate.Misreported? then 0 else 1)
  }

  lemma FirstTry(cfg: Config, c: Corridor, fate: Fate) returns (h: seq<Event>, s: Sys)
    requires Plain(cfg, c) && MayEndAs(cfg, fate) && (fate.Misreported? || fate.Delayed?)
    ensures TriedOnce(cfg, c, fate, h, s) && s.lo.p.stage == Refused(fate.retryable)
  {
    h := Readying(cfg, c);
    h, s := Tries(cfg, h, ReadySys(cfg, c), fate);
  }

  /** ... and backed off from. */
  lemma BacksOff(cfg: Config, h: seq<Event>, s: Sys) returns (h': seq<Event>, s': Sys)
    requires AtWork(cfg, h, s) && s.lo.p.claimed && !s.lo.p.dry && s.lo.p.attempt == 0
    requires s.lo.p.run.state == Settling && s.lo.p.stage == Refused(true) && s.lo.p.c.settings.maxRetries > 0
    requires WithTheQuote(s.lo.p.run) && Drawn(s.lo.p)
    ensures AtWork(cfg, h', s') && AtGate(s') && s'.lo.p.c == s.lo.p.c && Extends(h, h')
    ensures s'.lo.p.run == Step(s.lo.p.run, Retrying) && s'.lo.p.entered == s.lo.p.entered
    ensures s'.sh == s.sh.(row := s'.sh.row, retries := s'.sh.retries, slept := s'.sh.slept)
  {
    var h1, s1 := WriteRetrying(cfg, h, s);
    h', s' := Takes(cfg, h1, s1, Backoff(BackoffMs(1)));
    ExtendsOn(h, h1, h');
  }

  lemma WriteRetrying(cfg: Config, h: seq<Event>, s: Sys) returns (h': seq<Event>, s': Sys)
    requires AtWork(cfg, h, s) && s.lo.p.claimed && s.lo.p.attempt == 0
    requires s.lo.p.run.state == Settling && s.lo.p.stage == Refused(true) && s.lo.p.c.settings.maxRetries > 0
    ensures AtWork(cfg, h', s') && Extends(h, h')
    ensures var run := Step(s.lo.p.run, Retrying);
            s' == Sys(s.sh.(row := Some(run), retries := s.sh.retries + 1),
                      Live(s.lo.p.(run := run, attempt := 1, stage := Idle)))
  {
    h', s' := Writes(cfg, h, s, Step(s.lo.p.run, Retrying));
  }

  /** A payment under way lands. */
  lemma Lands(cfg: Config, h: seq<Event>, s: Sys) returns (h': seq<Event>, s': Sys)
    requires AtWork(cfg, h, s) && |s.sh.inflight| == 1
    ensures AtWork(cfg, h', s') && Extends(h, h') && s'.lo == s.lo
    ensures |s'.sh.paid| == |s.sh.paid| + 1
            && s'.sh == s.sh.(paid := s'.sh.paid, inflight := [])
  {
    OneMore(cfg, h, Land(Stellar("late")));
    h' := h + [Land(Stellar("late"))];
    s' := After(cfg, h').value;
  }

  /** A payment reported as a retryable failure is made again: where it lands only later, and,
      without findExisting, where it has landed. */
  lemma PaysTwice(cfg: Config, c: Corridor) returns (h: seq<Event>)
    requires Plain(cfg, c) && c.settings.maxRetries > 0 && !CanTell(cfg)
    ensures After(cfg, h).Some? && Calls(h, c, false) && Once(h)
    ensures var sh := After(cfg, h).value.sh; sh.pinned == Some(c) && |sh.paid| == 2
  {
    var fate := if cfg.lateRetries then Delayed(true) else Misreported(Stellar("a"), true);
    var s: Sys;
    h, s := ComesBack(cfg, c, fate);
    h, s := Tries(cfg, h, s, Accepted(Stellar("b")));
    if cfg.lateRetries { h, s := Lands(cfg, h, s); }
  }

  /** A first submit failed, and its process is back at the gate. */
  lemma ComesBack(cfg: Config, c: Corridor, fate: Fate) returns (h: seq<Event>, s: Sys)
    requires Plain(cfg, c) && MayEndAs(cfg, fate) && c.settings.maxRetries > 0
    requires (fate.Misreported? || fate.Delayed?) && fate.retryable
    ensures AtWork(cfg, h, s) && Once(h) && AtGate(s) && s.lo.p.c == c && s.sh.pinned == Some(c)
    ensures |s.sh.paid| == (if fate.Misreported? then 1 else 0)
    ensures |s.sh.inflight| == (if fate.Misreported? then 0 else 1)
  {
    h, s := FirstTry(cfg, c, fate);
    h, s := BacksOff(cfg, h, s);
  }

  ghost predicate PaidTwice(cfg: Config, c: Corridor, h: seq<Event>) {
    After(cfg, h).Some? && After(cfg, h).value.sh.pinned == Some(c) && |After(cfg, h).value.sh.paid| >= 2
  }

  /** Exactly when a key can pay twice: the manifest allows a retry, and what is reported as a
      retryable failure can land later, or has landed and cannot be looked for. */
  lemma OnePaymentExactly(cfg: Config, c: Corridor)
    requires Plain(cfg, c)
    ensures (exists h :: PaidTwice(cfg, c, h)) <==>
              c.settings.maxRetries > 0 && (cfg.lateRetries || (cfg.misreports && !cfg.canFind))
  {
    if c.settings.maxRetries > 0 && !CanTell(cfg) {
      var h := PaysTwice(cfg, c);
      assert PaidTwice(cfg, c, h);
    } else {
      forall h ensures !PaidTwice(cfg, c, h) {
        if PaidTwice(cfg, c, h) { NotPaidTwice(cfg, c, h); }
      }
    }
  }

  lemma NotPaidTwice(cfg: Config, c: Corridor, h: seq<Event>)
    requires After(cfg, h).Some? && After(cfg, h).value.sh.pinned == Some(c)
    requires CanTell(cfg) || c.settings.maxRetries == 0
    ensures !PaidTwice(cfg, c, h)
  {
    var s := After(cfg, h).value;
    LeadingIsHappening(cfg, h, s);
    if CanTell(cfg) { Safety.AtMostOnePayment(cfg, h, s); } else { Safety.RetriesAreBounded(cfg, h, s); }
  }

  // ----- Money that moved unrecorded -----------------------------------------------------------------

  /** A run with nothing settled on its row is ended by its rollback policy. */
  lemma Ends(cfg: Config, h: seq<Event>, s: Sys) returns (h': seq<Event>, s': Sys)
    requires AtWork(cfg, h, s) && s.lo.p.claimed && s.lo.p.run.state in {Settling, Retrying}
    requires (s.lo.p.stage.Refused? || s.lo.p.stage == Rested) && Unsettled(s.lo.p.run)
    requires s.lo.p.entered == Created && s.lo.p.run.refundId.None?
    ensures AtWork(cfg, h', s') && Extends(h, h')
    ensures s'.sh == s.sh.(row := s'.sh.row) && s'.lo.p.c == s.lo.p.c && s'.lo.p.dry == s.lo.p.dry
    ensures s'.lo.p.run.state == EndOf(s.lo.p.c.settings.rollback) && Unsettled(s'.lo.p.run)
    ensures s'.lo.p.run.refundId.None?
  {
    if s.lo.p.c.settings.rollback == Manual {
      h', s' := FailsAtOnce(cfg, h, s);
    } else {
      h', s' := EntersRecovery(cfg, h, s);
      h', s' := EndsRecovery(cfg, h', s');
    }
  }

  const WHY := "SETTLEMENT_FAILED: the submit failed"

  lemma FailsAtOnce(cfg: Config, h: seq<Event>, s: Sys) returns (h': seq<Event>, s': Sys)
    requires AtWork(cfg, h, s) && s.lo.p.claimed && s.lo.p.run.state in {Settling, Retrying}
    requires s.lo.p.stage.Refused? || s.lo.p.stage == Rested
    requires !HasSettlementRef(s.lo.p.run)
    ensures AtWork(cfg, h', s') && Extends(h, h')
    ensures var run := Step(s.lo.p.run, Failed).(lastError := Some(WHY));
            s' == Sys(s.sh.(row := Some(run)), Live(s.lo.p.(run := run, stage := Idle)))
  {
    h', s' := Writes(cfg, h, s, Step(s.lo.p.run, Failed).(lastError := Some(WHY)));
  }

  lemma EntersRecovery(cfg: Config, h: seq<Event>, s: Sys) returns (h': seq<Event>, s': Sys)
    requires AtWork(cfg, h, s) && s.lo.p.claimed && s.lo.p.run.state in {Settling, Retrying}
    requires s.lo.p.stage.Refused? || s.lo.p.stage == Rested
    ensures AtWork(cfg, h', s') && Extends(h, h')
    ensures var run := Step(s.lo.p.run, Recovering);
            s' == Sys(s.sh.(row := Some(run)), Live(s.lo.p.(run := run, stage := Idle)))
  {
    h', s' := Writes(cfg, h, s, Step(s.lo.p.run, Recovering));
  }

  lemma EndsRecovery(cfg: Config, h: seq<Event>, s: Sys) returns (h': seq<Event>, s': Sys)
    requires AtWork(cfg, h, s) && s.lo.p.claimed && s.lo.p.run.state == Recovering && s.lo.p.stage == Idle
    requires Unsettled(s.lo.p.run) && s.lo.p.entered == Created && s.lo.p.run.refundId.None?
    requires s.lo.p.c.settings.rollback != Manual
    ensures AtWork(cfg, h', s') && Extends(h, h')
    ensures var run := Step(s.lo.p.run, EndOf(s.lo.p.c.settings.rollback)).(lastError := Some(WHY));
            s' == Sys(s.sh.(row := Some(run)), Live(s.lo.p.(run := run, stage := Idle)))
  {
    var run := Step(s.lo.p.run, EndOf(s.lo.p.c.settings.rollback)).(lastError := Some(WHY));
    h', s' := Writes(cfg, h, s, run);
  }

  /** The payment is on the chain, the run is over, and its row knows of no settlement, no refund
      and no report of one. */
  ghost predicate Unrecorded(cfg: Config, c: Corridor, h: seq<Event>) {
    && After(cfg, h).Some?
    && var sh := After(cfg, h).value.sh;
    && sh.pinned == Some(c) && sh.paid != [] && sh.row.Some? && IsTerminal(sh.row.value.state)
    && !HasSettlementRef(sh.row.value) && sh.row.value.refundId.None? && sh.refunds == [] && !sh.reported
  }

  /** A payment that landed, or lands later, but was reported as a failure: once its retries are
      used up the run ends as its rollback policy says, with no settlement on its row. */
  lemma LosesPayment(cfg: Config, c: Corridor) returns (h: seq<Event>)
    requires Plain(cfg, c) && !Truthful(cfg)
    ensures Unrecorded(cfg, c, h) && Safety.OneManifest(h, HashOf(c)) && Once(h) && Calls(h, c, false)
    ensures After(cfg, h).value.sh.row.value.state == EndOf(c.settings.rollback)
  {
    var s: Sys;
    if cfg.misreports {
      h, s := FirstTry(cfg, c, Misreported(Stellar("a"), false));
      h, s := Ends(cfg, h, s);
    } else {
      h, s := LosesLater(cfg, c);
    }
    NothingOnRecord(cfg, c, h, s);
  }

  /** The failure was retryable: the retry finds the run out of time, and the payment lands then. */
  lemma LosesLater(cfg: Config, c: Corridor) returns (h: seq<Event>, s: Sys)
    requires Plain(cfg, c) && cfg.lateRetries
    ensures EndedUnsettled(cfg, c, h, s) && s.sh.paid != []
  {
    h, s := FirstTry(cfg, c, Delayed(true));
    if c.settings.maxRetries > 0 { h, s := BacksOff(cfg, h, s); }
    h, s := Ends(cfg, h, s);
    h, s := Lands(cfg, h, s);
  }

  ghost predicate EndedUnsettled(cfg: Config, c: Corridor, h: seq<Event>, s: Sys) {
    && AtWork(cfg, h, s) && Once(h) && s.lo.p.c == c && !s.lo.p.dry && s.sh.pinned == Some(c)
    && s.lo.p.run.state == EndOf(c.settings.rollback) && Unsettled(s.lo.p.run) && s.lo.p.run.refundId.None?
    && s.sh.refunds == [] && !s.sh.reported
  }

  lemma NothingOnRecord(cfg: Config, c: Corridor, h: seq<Event>, s: Sys)
    requires EndedUnsettled(cfg, c, h, s) && s.sh.paid != []
    ensures Unrecorded(cfg, c, h) && Safety.OneManifest(h, HashOf(c))
    ensures After(cfg, h).value.sh.row.value.state == EndOf(c.settings.rollback)
  {
    forall i | 0 <= i < |h| && h[i].Boot? ensures HashOf(h[i].c) == HashOf(c) {
      assert h[i] in h;
    }
  }

  /** Exactly when money can go unrecorded under an unchanged manifest: when a failure the
      submitter reports need not be the truth. Looking for payments does not help. */
  lemma UnrecordedMoneyExactly(cfg: Config, c: Corridor)
    requires Plain(cfg, c)
    ensures (exists h :: Unrecorded(cfg, c, h) && Safety.OneManifest(h, HashOf(c))) <==>
              cfg.misreports || cfg.lateRetries
  {
    if Truthful(cfg) {
      forall h | Unrecorded(cfg, c, h) ensures !Safety.OneManifest(h, HashOf(c)) {
        LeadingIsHappening(cfg, h, After(cfg, h).value);
        Safety.MovedMoneyIsRecorded(cfg, h, HashOf(c), After(cfg, h).value);
      }
    } else {
      var h := LosesPayment(cfg, c);
    }
  }

  ghost predicate LostAsRefunded(cfg: Config, c: Corridor, h: seq<Event>) {
    Unrecorded(cfg, c, h) && After(cfg, h).value.sh.row.value.state == Refunded
  }

  /** Exactly when a run can look refunded while the payment is out and nobody sent it back: under
      `refund_sender`, when a reported failure need not be the truth. */
  lemma LostPayment(cfg: Config, c: Corridor)
    requires Plain(cfg, c)
    ensures (exists h :: LostAsRefunded(cfg, c, h)) <==>
              c.settings.rollback == RefundSender && (cfg.misreports || cfg.lateRetries)
  {
    if c.settings.rollback == RefundSender && !Truthful(cfg) {
      var h := LosesPayment(cfg, c);
      assert LostAsRefunded(cfg, c, h);
    } else {
      forall h ensures !LostAsRefunded(cfg, c, h) {
        if LostAsRefunded(cfg, c, h) { NotLostAsRefunded(cfg, c, h); }
      }
    }
  }

  lemma NotLostAsRefunded(cfg: Config, c: Corridor, h: seq<Event>)
    requires After(cfg, h).Some? && (c.settings.rollback != RefundSender || Truthful(cfg))
    ensures !LostAsRefunded(cfg, c, h)
  {
    var s := After(cfg, h).value;
    LeadingIsHappening(cfg, h, s);
    Safety.RefundsFollowThePolicy(cfg, h, HashOf(c), s);
    if Truthful(cfg) { Safety.MovedMoneyIsRecorded(cfg, h, HashOf(c), s); }
  }

  // ----- Dry runs, exactly ---------------------------------------------------------------------------

  /** Resuming does not ask whether the call is a dry run: a dry run that stopped after opening
      its transaction pays when it is called again, dry or not. */
  lemma ResumedDryRunPays(cfg: Config, c: Corridor) returns (h: seq<Event>)
    requires Plain(cfg, c) && !cfg.gate && cfg.canFind
    ensures After(cfg, h).Some? && Checked.OnlyDry(h) && |After(cfg, h).value.sh.paid| == 1
  {
    h := Opening(cfg, c, true);
    var s := OpenedSys(cfg, c, true);
    h, s := Again(cfg, h, s);
    h := ResumedPays(cfg, h, s);
  }

  /** A resumed process that finds no payment and has no gate pays. */
  lemma ResumedPays(cfg: Config, h: seq<Event>, s: Sys) returns (h': seq<Event>)
    requires AtWork(cfg, h, s) && !cfg.gate && cfg.canFind && s.sh.paid == []
    requires s.lo.p.run.state == Opened && s.lo.p == Start(s.lo.p.c, s.lo.p.dry, false, s.lo.p.run).p
    requires !Repinned(s.lo.p) && WithTheQuote(s.lo.p.run) && s.lo.p.run.sourceTransactionId.None?
    ensures After(cfg, h').Some? && |After(cfg, h').value.sh.paid| == 1
    ensures Calls(h', s.lo.p.c, s.lo.p.dry)
  {
    var req, s' := RequestOf(s.lo.p.run, s.lo.p.c.settings), s;
    h', s' := LooksAndDraws(cfg, h, s, req);
    h', s' := WalksAndPays(cfg, h', s', req);
  }

  lemma WalksAndPays(cfg: Config, h: seq<Event>, s: Sys, req: Request) returns (h': seq<Event>, s': Sys)
    requires AtWork(cfg, h, s) && !cfg.gate && s.lo.p.stage == Clear(req, Some(EARLY)) && !Repinned(s.lo.p)
    requires !s.lo.p.claimed && s.lo.p.entered == Opened && s.lo.p.run.state in {Opened, Funded}
    requires WithTheQuote(s.lo.p.run) && Drawn(s.lo.p) && req == RequestOf(s.lo.p.run, s.lo.p.c.settings)
    ensures AtWork(cfg, h', s') && |s'.sh.paid| == |s.sh.paid| + 1 && s'.lo.p.c == s.lo.p.c && s'.lo.p.dry == s.lo.p.dry
  {
    h', s' := WalksOn(cfg, h, s, req);
    h', s' := Submits(cfg, h', s', req);
  }

  lemma Submits(cfg: Config, h: seq<Event>, s: Sys, req: Request) returns (h': seq<Event>, s': Sys)
    requires AtWork(cfg, h, s) && MaySubmit(cfg, s.lo.p, req)
    ensures AtWork(cfg, h', s') && |s'.sh.paid| == |s.sh.paid| + 1 && s'.lo.p.c == s.lo.p.c && s'.lo.p.dry == s.lo.p.dry
  {
    h', s' := Takes(cfg, h, s, Submit(req, Accepted(Stellar("a"))));
  }

  lemma LooksAndDraws(cfg: Config, h: seq<Event>, s: Sys, req: Request) returns (h': seq<Event>, s': Sys)
    requires AtWork(cfg, h, s) && s.sh.paid == [] && MayFind(cfg, s.lo.p, req) && !s.lo.p.claimed
    requires s.lo.p.run.state == Opened && s.lo.p.run.sourceTransactionId.None? && !cfg.gate
    ensures AtWork(cfg, h', s')
    ensures var run := if s.lo.p.c.settings.prefunded then s.lo.p.run else Deposited(s.lo.p.run);
            s' == Sys(s.sh.(row := Some(run)), Live(s.lo.p.(run := run, stage := Clear(req, Some(EARLY)))))
  {
    h', s' := FindsNone(cfg, h, s, req);
    if !s.lo.p.c.settings.prefunded { h', s' := Draws(cfg, h', s'); }
    h', s' := ReadsClock(cfg, h', s');
  }

  lemma FindsNone(cfg: Config, h: seq<Event>, s: Sys, req: Request) returns (h': seq<Event>, s': Sys)
    requires AtWork(cfg, h, s) && s.sh.paid == [] && MayFind(cfg, s.lo.p, req) && !s.lo.p.claimed
    ensures AtWork(cfg, h', s') && s' == Sys(s.sh, Live(s.lo.p.(stage := Clear(req, None))))
  {
    h', s' := Takes(cfg, h, s, Find(req, None));
  }

  lemma WalksOn(cfg: Config, h: seq<Event>, s: Sys, req: Request) returns (h': seq<Event>, s': Sys)
    requires AtWork(cfg, h, s) && !cfg.gate && s.lo.p.stage == Clear(req, Some(EARLY)) && !Repinned(s.lo.p)
    requires !s.lo.p.claimed && s.lo.p.entered == Opened && s.lo.p.run.state in {Opened, Funded}
    requires WithTheQuote(s.lo.p.run) && Drawn(s.lo.p)
    ensures AtWork(cfg, h', s')
    ensures var run := Step(Step(s.lo.p.run, Verifying), Settling);
            s' == Sys(s.sh.(row := Some(run)), Live(s.lo.p.(run := run)))
  {
    var run := Step(s.lo.p.run, Verifying);
    MayVerifyThenSettle(cfg, s.lo.p, req);
    h', s' := Writes(cfg, h, s, run);
    h', s' := Writes(cfg, h', s', Step(run, Settling));
  }

  lemma MayVerifyThenSettle(cfg: Config, p: Process, req: Request)
    requires !cfg.gate && p.stage == Clear(req, Some(EARLY)) && !Repinned(p) && !p.claimed
    requires p.entered == Opened && p.run.state in {Opened, Funded} && WithTheQuote(p.run) && Drawn(p)
    ensures var run := Step(p.run, Verifying);
            && MayWrite(cfg, p, run) && AfterWrite(p, run) == p.(run := run)
            && MayWrite(cfg, p.(run := run), Step(run, Settling))
            && AfterWrite(p.(run := run), Step(run, Settling)) == p.(run := Step(run, Settling))
  {
  }

  /** The process stops; another, called the same way, picks the row up. */
  lemma Again(cfg: Config, h: seq<Event>, s: Sys) returns (h': seq<Event>, s': Sys)
    requires AtWork(cfg, h, s) && !IsTerminal(s.lo.p.run.state) && Parsed(cfg.schema, s.lo.p.c)
    ensures AtWork(cfg, h', s') && s' == Sys(s.sh, Start(s.lo.p.c, s.lo.p.dry, false, s.lo.p.run))
  {
    var boot, read := Boot(s.lo.p.c, s.lo.p.dry), Read(s.sh.row);
    DecodingIsExact(s.lo.p.run);
    OneMore(cfg, h, boot);
    OneMore(cfg, h + [boot], read);
    h', s' := h + [boot] + [read], Sys(s.sh, Start(s.lo.p.c, s.lo.p.dry, false, s.lo.p.run));
  }

  ghost predicate DryAndPaid(cfg: Config, h: seq<Event>) {
    After(cfg, h).Some? && Checked.OnlyDry(h) && After(cfg, h).value.sh.submits > 0
  }

  /** Exactly when calls that are all dry runs can pay: no gate, and a submitter that can look. */
  lemma DryRunsPayExactly(cfg: Config, c: Corridor)
    requires Plain(cfg, c)
    ensures (exists h :: DryAndPaid(cfg, h)) <==> !cfg.gate && cfg.canFind
  {
    if !cfg.gate && cfg.canFind {
      var h := ResumedDryRunPays(cfg, c);
      InvHolds(cfg, h);
      assert DryAndPaid(cfg, h);
    } else {
      forall h ensures !DryAndPaid(cfg, h) {
        if DryAndPaid(cfg, h) { NotDryAndPaid(cfg, h); }
      }
    }
  }

  lemma NotDryAndPaid(cfg: Config, h: seq<Event>)
    requires After(cfg, h).Some? && Checked.OnlyDry(h) && (cfg.gate || !cfg.canFind)
    ensures !DryAndPaid(cfg, h)
  {
    Checked.DryRunsPayNothing(cfg, h);
  }
}
