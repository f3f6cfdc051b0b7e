/**
 * What processes that run on one key at the same time can do to each other, and the exact
 * conditions under which they can: settled rows overwritten, payments nobody recorded, outcomes
 * told twice. Every step is one that `execute` takes, with answers the ports are free to give.
 */
module Races {
  import opened Prelude
  import opened States
  import opened Runs
  import opened Stores
  import opened Protocol
  import opened OneWorker
  import opened Interleaving
  import opened Endings
  import Safety
  import W = Witnesses

  // ----- Building interleavings --------------------------------------------------------------------

  /** As long as nobody else moves, a process goes on as it would alone. */
  lemma {:induction false} Replays(cfg: Config, run: seq<Move>, s: Many, pid: nat, h: seq<Event>, more: seq<Event>,
                                   now: Sys)
    requires Reaches(cfg, run) == Some(s) && pid in s.procs && After(cfg, h) == Some(Sys(s.sh, s.procs[pid]))
    requires After(cfg, h + more) == Some(now) && forall i | 0 <= i < |more| :: !more[i].Boot?
    ensures Reaches(cfg, run + Tag(more, pid)) == Some(Many(now.sh, s.procs[pid := now.lo]))
    decreases |more|
  {
    if more == [] {
      ReplaysNothing(cfg, run, s, pid, h, now);
    } else {
      var less, e := more[..|more| - 1], more[|more| - 1];
      Splits(h, more, less, e);
      var before := OneLess(cfg, h + less, e);
      Replays(cfg, run, s, pid, h, less, before);
      ReplaysMore(cfg, run, s, pid, h + less, less, e, before);
    }
  }

  lemma ReplaysNothing(cfg: Config, run: seq<Move>, s: Many, pid: nat, h: seq<Event>, now: Sys)
    requires pid in s.procs && After(cfg, h) == Some(Sys(s.sh, s.procs[pid])) && After(cfg, h + []) == Some(now)
    ensures run + Tag([], pid) == run && Many(now.sh, s.procs[pid := now.lo]) == s
  {
    assert h + [] == h && s.procs[pid := s.procs[pid]] == s.procs;
  }

  lemma Splits(h: seq<Event>, more: seq<Event>, less: seq<Event>, e: Event)
    requires more != [] && less == more[..|more| - 1] && e == more[|more| - 1]
    ensures (h + less) + [e] == h + more && less + [e] == more
  {
  }

  lemma OneLess(cfg: Config, h: seq<Event>, e: Event) returns (s: Sys)
    requires After(cfg, h + [e]).Some?
    ensures After(cfg, h) == Some(s)
  {
    assert (h + [e])[..|h|] == h;
    s := After(cfg, h).value;
  }

  lemma ReplaysMore(cfg: Config, run: seq<Move>, s: Many, pid: nat, h: seq<Event>, less: seq<Event>, e: Event, now: Sys)
    requires After(cfg, h) == Some(now) && After(cfg, h + [e]).Some? && !e.Boot?
    requires Reaches(cfg, run + Tag(less, pid)) == Some(Many(now.sh, s.procs[pid := now.lo]))
    ensures var next := After(cfg, h + [e]).value;
            Reaches(cfg, run + Tag(less + [e], pid)) == Some(Many(next.sh, s.procs[pid := next.lo]))
  {
    var next := After(cfg, h + [e]).value;
    assert run + Tag(less + [e], pid) == (run + Tag(less, pid)) + [By(pid, e)];
    ReplaysOne(cfg, run + Tag(less, pid), Many(now.sh, s.procs[pid := now.lo]), pid, h, e);
    assert s.procs[pid := now.lo][pid := next.lo] == s.procs[pid := next.lo];
  }

  lemma ReplaysOne(cfg: Config, run: seq<Move>, s: Many, pid: nat, h: seq<Event>, e: Event)
    requires Reaches(cfg, run) == Some(s) && pid in s.procs && After(cfg, h) == Some(Sys(s.sh, s.procs[pid]))
    requires !e.Boot? && After(cfg, h + [e]).Some?
    ensures Reaches(cfg, run + [By(pid, e)])
         == Some(Many(After(cfg, h + [e]).value.sh, s.procs[pid := After(cfg, h + [e]).value.lo]))
  {
    OneMore(cfg, h, e);
    OneMoreStep(cfg, run, By(pid, e));
  }

  /** A winner whose gate passed, on its way to `settling`. */
  ghost predicate Passed(p: Process) {
    && p.claimed && !p.dry && p.stage == Gated(true, None) && p.run.state == Verifying && W.WithTheQuote(p.run)
    && Unsettled(p.run)
  }

  /** The row has moved past it, so nobody sees its `settling`: it pays all the same. */
  lemma PaysUnseen(cfg: Config, run: seq<Move>, s: Many, pid: nat) returns (run': seq<Move>, s': Many)
    requires Reaches(cfg, run) == Some(s) && pid in s.procs && s.procs[pid].Live? && Passed(s.procs[pid].p)
    requires cfg.store == Postgres && s.sh.row.Some? && s.procs[pid].p.run.version < s.sh.row.value.version
    requires s.sh.paid == []
    ensures Reaches(cfg, run') == Some(s') && GoesOn(run, run')
    ensures |s'.sh.paid| == 1 && s'.sh.row == s.sh.row && s'.sh.pinned == s.sh.pinned
  {
    run', s' := ReadsClock(cfg, run, s, pid, W.EARLY);
    run', s' := SettlesUnseen(cfg, run', s', pid);
    run', s' := LooksAndPays(cfg, run', s', pid);
  }

  lemma LooksAndPays(cfg: Config, run: seq<Move>, s: Many, pid: nat) returns (run': seq<Move>, s': Many)
    requires Reaches(cfg, run) == Some(s) && pid in s.procs && s.procs[pid].Live? && s.sh.paid == []
    requires var p := s.procs[pid].p;
             p.claimed && p.run.state == Settling && p.stage == Armed && p.run.settlementAmount.Some?
    ensures Reaches(cfg, run') == Some(s') && GoesOn(run, run')
    ensures |s'.sh.paid| == 1 && s'.sh.row == s.sh.row && s'.sh.pinned == s.sh.pinned
  {
    var p := s.procs[pid].p;
    run', s' := LooksInVain(cfg, run, s, pid);
    run', s' := ActsSubmit(cfg, run', s', pid, RequestOf(p.run, p.c.settings), Stellar("a"));
  }

  lemma SettlesUnseen(cfg: Config, run: seq<Move>, s: Many, pid: nat) returns (run': seq<Move>, s': Many)
    requires Reaches(cfg, run) == Some(s) && pid in s.procs && s.procs[pid].Live?
    requires var p := s.procs[pid].p;
             && p.claimed && !p.dry && p.stage == Gated(true, Some(W.EARLY)) && p.run.state == Verifying
             && W.WithTheQuote(p.run)
    requires cfg.store == Postgres && s.sh.row.Some? && s.procs[pid].p.run.version < s.sh.row.value.version
    ensures Reaches(cfg, run') == Some(s') && GoesOn(run, run') && s'.sh == s.sh
    ensures var p := s.procs[pid].p;
            s'.procs == s.procs[pid := Live(p.(run := Runs.Step(p.run, Settling), stage := Armed))]
  {
    run', s' := ActsWrite(cfg, run, s, pid, Runs.Step(s.procs[pid].p.run, Settling));
  }

  /** Where the submitter can look, the winner looks before it pays. */
  lemma LooksInVain(cfg: Config, run: seq<Move>, s: Many, pid: nat) returns (run': seq<Move>, s': Many)
    requires Reaches(cfg, run) == Some(s) && pid in s.procs && s.procs[pid].Live? && s.sh.paid == []
    requires var p := s.procs[pid].p;
             p.claimed && p.run.state == Settling && p.stage == Armed && p.run.settlementAmount.Some?
    ensures Reaches(cfg, run') == Some(s') && GoesOn(run, run') && s'.sh == s.sh && pid in s'.procs
    ensures var p := s.procs[pid].p;
            && s'.procs[pid].Live? && s'.procs[pid].p.run == p.run && s'.procs[pid].p.c == p.c
            && MaySubmit(cfg, s'.procs[pid].p, RequestOf(p.run, p.c.settings))
  {
    run', s' := run, s;
    var p := s.procs[pid].p;
    if cfg.canFind { run', s' := Acts(cfg, run, s, pid, Find(RequestOf(p.run, p.c.settings), None)); }
  }

  // ----- A payment nobody recorded -------------------------------------------------------------------

  /** A finished row with nothing settled on it, and a payment on the chain. */
  ghost predicate LeftOut(cfg: Config, c: Corridor, run: seq<Move>) {
    && Reaches(cfg, run).Some? && OneManifest(run, HashOf(c))
    && var sh := Reaches(cfg, run).value.sh;
    && sh.pinned == Some(c) && sh.paid != [] && sh.row.Some? && IsTerminal(sh.row.value.state)
    && !HasSettlementRef(sh.row.value)
  }

  /** The winner is past its gate. */
  ghost function PassedSys(cfg: Config, c: Corridor): Sys {
    var run := Runs.Step(W.AReadyRun(cfg, c), Verifying);
    Sys(NOTHING.(row := Some(run), pinned := Some(c)),
        Live(Process(c, false, true, Created, run, 0, Gated(true, None), false, false)))
  }

  lemma Passing(cfg: Config, c: Corridor) returns (run: seq<Move>)
    requires Parsed(cfg.schema, c)
    ensures Reaches(cfg, run) == Some(Many(PassedSys(cfg, c).sh, map[0 := PassedSys(cfg, c).lo]))
    ensures OneManifest(run, HashOf(c))
  {
    var h := W.Readying(cfg, c);
    var s := W.ReadySys(cfg, c);
    h, s := W.GateLets(cfg, h, s);
    h, s := W.WriteVerifying(cfg, h, s);
    Solo(cfg, h, 0);
    run := Tag(h, 0);
    CallsMeansOneManifest(h, c);
  }

  lemma CallsMeansOneManifest(h: seq<Event>, c: Corridor)
    requires W.Calls(h, c, false)
    ensures OneManifest(Tag(h, 0), HashOf(c))
  {
    forall i | 0 <= i < |h| && h[i].Boot? ensures HashOf(h[i].c) == HashOf(c) {
      assert h[i] in h;
    }
  }

  /** A process that reads the row before the winner's `settling`, looks and finds nothing fails the
      run, for a lapsed quote or an untrusted route; the winner's `settling` comes too late for the
      row, and it pays. */
  lemma FailsWhileTheWinnerPays(cfg: Config, c: Corridor) returns (run: seq<Move>)
    requires W.Plain(cfg, c) && cfg.store == Postgres && cfg.canFind
    ensures LeftOut(cfg, c, run)
  {
    var s: Many;
    run, s := LooksAtThePassed(cfg, c);
    var joined := run;
    run, s := GivesUp(cfg, run, s, 1);
    run, s := PaysUnseen(cfg, run, s, 0);
    StillOneManifest(joined, run, HashOf(c));
  }

  /** ... the second process has looked. */
  lemma LooksAtThePassed(cfg: Config, c: Corridor) returns (run: seq<Move>, s: Many)
    requires Parsed(cfg.schema, c) && cfg.store == Postgres && cfg.canFind
    ensures Reaches(cfg, run) == Some(s) && OneManifest(run, HashOf(c))
    ensures s.sh == PassedSys(cfg, c).sh && 0 in s.procs && s.procs[0] == PassedSys(cfg, c).lo
    ensures 1 in s.procs && s.procs[1].Live? && Quitter(s.procs[1].p) && s.procs[1].p.run == s.sh.row.value
  {
    run, s := ReadsThePassed(cfg, c);
    var joined := run;
    run, s := FindsNothing(cfg, run, s, 1);
    StillOneManifest(joined, run, HashOf(c));
  }

  lemma ReadsThePassed(cfg: Config, c: Corridor) returns (run: seq<Move>, s: Many)
    requires Parsed(cfg.schema, c)
    ensures Reaches(cfg, run) == Some(s) && OneManifest(run, HashOf(c))
    ensures s.sh == PassedSys(cfg, c).sh && 0 in s.procs && s.procs[0] == PassedSys(cfg, c).lo
    ensures 1 in s.procs && s.procs[1] == Start(c, false, false, s.sh.row.value)
  {
    run := Passing(cfg, c);
    s := Many(PassedSys(cfg, c).sh, map[0 := PassedSys(cfg, c).lo]);
    run, s := Joins(cfg, run, s, 1, c);
  }

  /** A resumed process that looked at a `verifying` run in vain. */
  ghost predicate Quitter(p: Process) {
    && !p.claimed && !Repinned(p) && p.stage.Clear? && p.run.state == p.entered == Verifying
    && Unsettled(p.run) && p.run.refundId.None?
  }

  function LapsedRun(run: Run): Run {
    Runs.Step(run, Failed).(lastError := Some("QUOTE_EXPIRED: the quote lapsed"))
  }

  lemma QuittersFail(cfg: Config, p: Process)
    requires Quitter(p)
    ensures MayWrite(cfg, p, LapsedRun(p.run))
  {
  }

  lemma GivesUp(cfg: Config, run: seq<Move>, s: Many, pid: nat) returns (run': seq<Move>, s': Many)
    requires Reaches(cfg, run) == Some(s) && pid in s.procs && s.procs[pid].Live? && Quitter(s.procs[pid].p)
    requires cfg.store == Postgres && s.sh.row == Some(s.procs[pid].p.run)
    ensures Reaches(cfg, run') == Some(s') && GoesOn(run, run')
    ensures pid in s'.procs && s'.procs == s.procs[pid := s'.procs[pid]]
    ensures s'.sh == s.sh.(row := Some(PgMerge(s.sh.row.value, LapsedRun(s.sh.row.value))))
  {
    QuittersFail(cfg, s.procs[pid].p);
    run', s' := ActsWrite(cfg, run, s, pid, LapsedRun(s.procs[pid].p.run));
  }

  /** In memory a process that read the row before it was opened fails it when the payment is out. */
  lemma StaleFailureInMemory(cfg: Config, c: Corridor) returns (run: seq<Move>)
    requires W.Plain(cfg, c) && cfg.store == InMemory
    ensures LeftOut(cfg, c, run)
    ensures var sh := Reaches(cfg, run).value.sh; sh.paid != [] && sh.row.value.settlementAmount.None?
  {
    var s: Many;
    run, s := PaidAfterARead(cfg, c);
    var before := run;
    var failed := Runs.Step(s.procs[1].p.run, Failed).(lastError := Some("IDEMPOTENCY_CONFLICT: run is stale"));
    UnopenedRunsFail(cfg, s.procs[1].p, failed.lastError);
    run, s := ActsWrite(cfg, run, s, 1, failed);
    StillOneManifest(before, run, HashOf(c));
  }

  /** In every interleaving under this manifest the row says what each payment was for. */
  ghost predicate RowTellsTheTerms(cfg: Config, c: Corridor) {
    forall run | Reaches(cfg, run).Some? && OneManifest(run, HashOf(c)) :: TellsTheTerms(Reaches(cfg, run).value.sh)
  }

  predicate TellsTheTerms(sh: Shared) {
    forall p | p in sh.paid ::
      sh.row.Some? && sh.pinned.Some? && Asks(p.req, sh.row.value, sh.pinned.value.settings.asset)
  }

  /** It does exactly in Postgres: in memory a stale process can put back a row without them. */
  lemma TermsAreKeptExactly(cfg: Config, c: Corridor)
    requires W.Plain(cfg, c)
    ensures RowTellsTheTerms(cfg, c) <==> cfg.store == Postgres
  {
    if cfg.store == Postgres {
      forall run | Reaches(cfg, run).Some? && OneManifest(run, HashOf(c))
        ensures TellsTheTerms(Reaches(cfg, run).value.sh)
      {
        PostgresTellsTheTerms(cfg, run);
      }
    } else {
      var run := StaleFailureInMemory(cfg, c);
      var sh := Reaches(cfg, run).value.sh;
      assert sh.paid[0] in sh.paid && !Asks(sh.paid[0].req, sh.row.value, sh.pinned.value.settings.asset);
    }
  }

  lemma PostgresTellsTheTerms(cfg: Config, run: seq<Move>)
    requires cfg.store == Postgres && Reaches(cfg, run).Some?
    ensures TellsTheTerms(Reaches(cfg, run).value.sh)
  {
    var sh := Reaches(cfg, run).value.sh;
    forall p | p in sh.paid
      ensures sh.row.Some? && sh.pinned.Some? && Asks(p.req, sh.row.value, sh.pinned.value.settings.asset)
    {
      EveryPaymentIsAsAgreed(cfg, run, p.req);
    }
  }

  lemma UnopenedRunsFail(cfg: Config, p: Process, why: Option<string>)
    requires p.run.state == p.entered == Created && !p.claimed && p.stage == Idle && !HasSettlementRef(p.run)
    ensures MayWrite(cfg, p, Runs.Step(p.run, Failed).(lastError := why))
  {
  }

  /** One process read the row just after the claim; the winner has paid since. */
  lemma PaidAfterARead(cfg: Config, c: Corridor) returns (run: seq<Move>, s: Many)
    requires W.Plain(cfg, c)
    ensures Reaches(cfg, run) == Some(s) && OneManifest(run, HashOf(c))
    ensures s.sh.pinned == Some(c) && s.sh.paid != [] && s.sh.row.Some?
    ensures 1 in s.procs && s.procs[1] == Start(c, false, false, NewRun(cfg.key, c.settings.id, HashOf(c), None))
  {
    var h := W.Claiming(cfg, c, false);
    var h', paid := PaysFrom(cfg, c, h);
    var more := Rest(h, h');
    run, s := ReadsTheClaimed(cfg, c, h);
    Replays(cfg, run, s, 0, h, more, paid);
    TagGoesOn(run, more, 0);
    StillOneManifest(run, run + Tag(more, 0), HashOf(c));
    run, s := run + Tag(more, 0), Many(paid.sh, s.procs[0 := paid.lo]);
  }

  lemma Rest(h: seq<Event>, h': seq<Event>) returns (more: seq<Event>)
    requires W.Once(h) && W.Extends(h, h')
    ensures h + more == h' && forall i | 0 <= i < |more| :: !more[i].Boot?
  {
    more := h'[|h|..];
    assert forall i | 0 <= i < |more| :: more[i] == h'[|h| + i];
  }

  lemma ReadsTheClaimed(cfg: Config, c: Corridor, h: seq<Event>) returns (run: seq<Move>, s: Many)
    requires Parsed(cfg.schema, c) && W.AtWork(cfg, h, W.ClaimedSys(cfg, c, false)) && W.Once(h)
    ensures Reaches(cfg, run) == Some(s) && OneManifest(run, HashOf(c))
    ensures s.sh == W.ClaimedSys(cfg, c, false).sh && 0 in s.procs && s.procs[0] == W.ClaimedSys(cfg, c, false).lo
    ensures 1 in s.procs && s.procs[1] == Start(c, false, false, NewRun(cfg.key, c.settings.id, HashOf(c), None))
  {
    Solo(cfg, h, 0);
    run := Tag(h, 0);
    CallsMeansOneManifest(h, c);
    run, s := Joins(cfg, run, Reaches(cfg, run).value, 1, c);
  }

  lemma TagGoesOn(run: seq<Move>, more: seq<Event>, pid: nat)
    requires forall i | 0 <= i < |more| :: !more[i].Boot?
    ensures GoesOn(run, run + Tag(more, pid))
  {
  }

  lemma PaysFrom(cfg: Config, c: Corridor, h: seq<Event>) returns (h': seq<Event>, s: Sys)
    requires W.AtWork(cfg, h, W.ClaimedSys(cfg, c, false)) && W.Once(h)
    ensures W.AtWork(cfg, h', s) && W.Extends(h, h') && s.sh.pinned == Some(c) && s.sh.paid != []
  {
    h' := W.Readies(cfg, c, h);
    h', s := W.Tries(cfg, h', W.ReadySys(cfg, c), Accepted(Stellar("a")));
  }

  // ----- Deposits that fall through -----------------------------------------------------------------------

  /** A funded run whose quote has lapsed by another process's clock is parked, while the winner, in
      time by its own, settles unseen. */
  lemma ParkedWhileTheWinnerPays(cfg: Config, c: Corridor) returns (run: seq<Move>)
    requires W.Plain(cfg, c) && cfg.store == Postgres && !cfg.gate && !c.settings.prefunded
    ensures LeftOut(cfg, c, run)
  {
    run := Gathering(cfg, c);
    var s := Gathered(cfg, c);
    var before := run;
    run, s := ParksFunded(cfg, run, s, 1);
    run, s := VerifiesUnseen(cfg, run, s, 0);
    run, s := PaysUnseen(cfg, run, s, 0);
    StillOneManifest(before, run, HashOf(c));
  }

  /** The row has moved past it: the gate passes all the same. */
  lemma VerifiesUnseen(cfg: Config, run: seq<Move>, s: Many, pid: nat) returns (run': seq<Move>, s': Many)
    requires Reaches(cfg, run) == Some(s) && pid in s.procs && s.procs[pid].Live?
    requires var p := s.procs[pid].p;
             && p.claimed && !p.dry && Drawn(p) && W.WithTheQuote(p.run) && Unsettled(p.run)
             && p.run.state == Funded && p.stage == Idle
    requires cfg.store == Postgres && s.sh.row.Some? && s.procs[pid].p.run.version + 1 < s.sh.row.value.version
    ensures Reaches(cfg, run') == Some(s') && GoesOn(run, run') && s'.sh == s.sh && pid in s'.procs
    ensures s'.procs[pid].Live? && Passed(s'.procs[pid].p)
    ensures s'.procs[pid].p.run.version == s.procs[pid].p.run.version + 1
  {
    var p := s.procs[pid].p;
    run', s' := Acts(cfg, run, s, pid, Gate(W.AQuote(p.c), !cfg.gate, true));
    run', s' := ActsWrite(cfg, run', s', pid, Runs.Step(p.run, Verifying));
  }

  const PARKED := "QUOTE_EXPIRED: stored quote expired during source funding"

  lemma ParksFunded(cfg: Config, run: seq<Move>, s: Many, pid: nat) returns (run': seq<Move>, s': Many)
    requires Reaches(cfg, run) == Some(s) && pid in s.procs && s.procs[pid].Live?
    requires cfg.store == Postgres && !cfg.gate && s.sh.row == Some(s.procs[pid].p.run)
    requires var p := s.procs[pid].p;
             && !p.claimed && !Repinned(p) && p.run.state == p.entered == Funded && p.stage == Idle
             && Unsettled(p.run) && p.run.refundId.None?
    ensures Reaches(cfg, run') == Some(s') && GoesOn(run, run')
    ensures pid in s'.procs && s'.procs == s.procs[pid := s'.procs[pid]]
    ensures s'.sh == s.sh.(row := s'.sh.row) && s'.sh.row.Some?
    ensures var row, now := s.sh.row.value, s'.sh.row.value;
            && now.version == row.version + 2 && now.state == Held && !HasSettlementRef(now)
  {
    var r := Runs.Step(s.procs[pid].p.run, Recovering);
    MayPark(cfg, s.procs[pid].p);
    run', s' := WritesTwice(cfg, run, s, pid, r, Runs.Step(r, Held).(lastError := Some(PARKED)));
  }

  lemma MayPark(cfg: Config, p: Process)
    requires !cfg.gate && !p.claimed && !Repinned(p) && p.run.state == p.entered == Funded && p.stage == Idle
    ensures var r := Runs.Step(p.run, Recovering);
            && MayWrite(cfg, p, r)
            && MayWrite(cfg, AfterWrite(p, r), Runs.Step(r, Held).(lastError := Some(PARKED)))
  {
  }

  /** The winner waits for the source deposit it opened. */
  ghost function AwaitingRun(cfg: Config, c: Corridor): Run {
    W.AnOpenedRun(cfg, c).(state := Funding, version := 5, sourceTransactionId := Some("d"))
  }

  ghost function AwaitingSys(cfg: Config, c: Corridor): Sys {
    var run := AwaitingRun(cfg, c);
    Sys(NOTHING.(row := Some(run), pinned := Some(c)),
        Live(Process(c, false, true, Created, run, 0, Idle, false, false)))
  }

  lemma Awaiting(cfg: Config, c: Corridor) returns (run: seq<Move>)
    requires Parsed(cfg.schema, c) && !c.settings.prefunded
    ensures Reaches(cfg, run) == Some(Many(AwaitingSys(cfg, c).sh, map[0 := AwaitingSys(cfg, c).lo]))
    ensures OneManifest(run, HashOf(c))
  {
    var h := W.Opening(cfg, c, false);
    var s := W.OpenedSys(cfg, c, false);
    h, s := W.WriteFunding(cfg, h, s);
    h, s := W.NotesDepositId(cfg, h, s);
    Solo(cfg, h, 0);
    run := Tag(h, 0);
    CallsMeansOneManifest(h, c);
  }

  /** The deposit falls through for a second process, which starts to recover the run; a third one
      finds the recovery and parks it, while for the winner the deposit arrives. */
  lemma RecoveredWhileTheWinnerPays(cfg: Config, c: Corridor) returns (run: seq<Move>)
    requires W.Plain(cfg, c) && cfg.store == Postgres && !c.settings.prefunded && c.settings.rollback != Manual
    ensures LeftOut(cfg, c, run)
  {
    var s: Many;
    run, s := DepositFallsThrough(cfg, c);
    var before := run;
    run, s := ParksTheRecovery(cfg, run, s, 2);
    StillOneManifest(before, run, HashOf(c));
    before := run;
    run, s := FundsUnseen(cfg, run, s, 0);
    StillOneManifest(before, run, HashOf(c));
    before := run;
    run, s := VerifiesUnseen(cfg, run, s, 0);
    StillOneManifest(before, run, HashOf(c));
    before := run;
    run, s := PaysUnseen(cfg, run, s, 0);
    StillOneManifest(before, run, HashOf(c));
  }

  lemma DepositFallsThrough(cfg: Config, c: Corridor) returns (run: seq<Move>, s: Many)
    requires W.Plain(cfg, c) && cfg.store == Postgres && !c.settings.prefunded && c.settings.rollback != Manual
    ensures Reaches(cfg, run) == Some(s) && OneManifest(run, HashOf(c))
    ensures s.sh == AwaitingSys(cfg, c).sh.(row := Some(Runs.Step(AwaitingRun(cfg, c), Recovering)))
    ensures 0 in s.procs && s.procs[0] == AwaitingSys(cfg, c).lo
    ensures 2 in s.procs && s.procs[2] == Start(c, false, false, s.sh.row.value)
  {
    run, s := StartsToRecover(cfg, c);
    run, s := Joins(cfg, run, s, 2, c);
  }

  lemma StartsToRecover(cfg: Config, c: Corridor) returns (run: seq<Move>, s: Many)
    requires W.Plain(cfg, c) && cfg.store == Postgres && !c.settings.prefunded && c.settings.rollback != Manual
    ensures Reaches(cfg, run) == Some(s) && OneManifest(run, HashOf(c))
    ensures s.sh == AwaitingSys(cfg, c).sh.(row := Some(Runs.Step(AwaitingRun(cfg, c), Recovering)))
    ensures 0 in s.procs && s.procs[0] == AwaitingSys(cfg, c).lo && 2 !in s.procs
  {
    run, s := ReadsTheAwaiting(cfg, c);
    var before := run;
    MayRecoverTheDeposit(cfg, s.procs[1].p);
    run, s := ActsWrite(cfg, run, s, 1, Runs.Step(s.procs[1].p.run, Recovering));
    StillOneManifest(before, run, HashOf(c));
  }

  lemma ReadsTheAwaiting(cfg: Config, c: Corridor) returns (run: seq<Move>, s: Many)
    requires Parsed(cfg.schema, c) && !c.settings.prefunded
    ensures Reaches(cfg, run) == Some(s) && OneManifest(run, HashOf(c)) && s.sh == AwaitingSys(cfg, c).sh
    ensures 0 in s.procs && s.procs[0] == AwaitingSys(cfg, c).lo && 2 !in s.procs
    ensures 1 in s.procs && s.procs[1] == Start(c, false, false, AwaitingRun(cfg, c))
  {
    run := Awaiting(cfg, c);
    s := Many(AwaitingSys(cfg, c).sh, map[0 := AwaitingSys(cfg, c).lo]);
    run, s := Joins(cfg, run, s, 1, c);
  }

  lemma MayRecoverTheDeposit(cfg: Config, p: Process)
    requires !p.claimed && !Repinned(p) && p.run.state == p.entered == Funding && p.stage == Idle
    requires p.c.settings.rollback != Manual
    ensures MayWrite(cfg, p, Runs.Step(p.run, Recovering))
  {
  }

  lemma ParksTheRecovery(cfg: Config, run: seq<Move>, s: Many, pid: nat) returns (run': seq<Move>, s': Many)
    requires Reaches(cfg, run) == Some(s) && pid in s.procs && s.procs[pid].Live?
    requires cfg.store == Postgres && s.sh.row == Some(s.procs[pid].p.run)
    requires var p := s.procs[pid].p;
             && !p.claimed && !Repinned(p) && p.run.state == p.entered == Recovering && p.stage == Idle
             && Unsettled(p.run) && p.run.refundId.None?
    ensures Reaches(cfg, run') == Some(s') && GoesOn(run, run')
    ensures pid in s'.procs && s'.procs == s.procs[pid := s'.procs[pid]]
    ensures s'.sh == s.sh.(row := s'.sh.row) && s'.sh.row.Some?
    ensures var row, now := s.sh.row.value, s'.sh.row.value;
            && now.version == row.version + 2 && now.state == Held && !HasSettlementRef(now)
  {
    var pending := Runs.Step(s.procs[pid].p.run, RefundPending);
    MayAwaitTheRefund(cfg, s.procs[pid].p);
    var run1, s1 := ActsWrite(cfg, run, s, pid, pending);
    var run2, s2 := WatchesInVain(cfg, run1, s1, pid);
    run', s' := ActsWrite(cfg, run2, s2, pid, Runs.Step(pending, Held).(lastError := Some("no refund in time")));
    GoesOnAndOn(run, run1, run2);
    GoesOnAndOn(run, run2, run');
    TwiceUpdated(s.procs, pid, s1.procs[pid], s'.procs[pid]);
  }

  lemma WatchesInVain(cfg: Config, run: seq<Move>, s: Many, pid: nat) returns (run': seq<Move>, s': Many)
    requires Reaches(cfg, run) == Some(s) && pid in s.procs && s.procs[pid].Live?
    requires s.procs[pid].p.run.state == RefundPending && s.procs[pid].p.stage == Idle
    ensures Reaches(cfg, run') == Some(s') && GoesOn(run, run') && s' == s
  {
    run', s' := Acts(cfg, run, s, pid, WatchRefund(false, None));
    assert s'.procs == s.procs;
  }

  lemma MayAwaitTheRefund(cfg: Config, p: Process)
    requires !p.claimed && !Repinned(p) && p.run.state == p.entered == Recovering && p.stage == Idle
    ensures var r := Runs.Step(p.run, RefundPending);
            && MayWrite(cfg, p, r)
            && MayWrite(cfg, AfterWrite(p, r), Runs.Step(r, Held).(lastError := Some("no refund in time")))
  {
  }

  lemma FundsUnseen(cfg: Config, run: seq<Move>, s: Many, pid: nat) returns (run': seq<Move>, s': Many)
    requires Reaches(cfg, run) == Some(s) && pid in s.procs && s.procs[pid].Live?
    requires var p := s.procs[pid].p;
             && p.claimed && p.run.state == Funding && p.stage == Idle && Given(p.run.sourceTransactionId)
    requires cfg.store == Postgres && s.sh.row.Some? && s.procs[pid].p.run.version < s.sh.row.value.version
    ensures Reaches(cfg, run') == Some(s') && GoesOn(run, run') && s'.sh == s.sh
    ensures var p := s.procs[pid].p;
            s'.procs == s.procs[pid := Live(p.(run := Runs.Step(p.run, Funded)))]
  {
    run', s' := ActsWrite(cfg, run, s, pid, Runs.Step(s.procs[pid].p.run, Funded));
  }

  // ----- ... exactly -----------------------------------------------------------------------------------------

  /** One process alone, whose submitter misreports a failure or is late. */
  lemma LosesPaymentAlone(cfg: Config, c: Corridor) returns (run: seq<Move>)
    requires W.Plain(cfg, c) && !Truthful(cfg)
    ensures LeftOut(cfg, c, run)
  {
    var h := W.LosesPayment(cfg, c);
    Solo(cfg, h, 0);
    run := Tag(h, 0);
    CallsMeansOneManifest(h, c);
  }

  /** Exactly when concurrent callers of one manifest can leave a finished row with a landed payment
      that nobody recorded: everywhere but in SQL, with a truthful submitter that cannot look, for a
      corridor that draws no deposit, or one that has a gate and rolls back by hand. */
  lemma LeftOutExactly(cfg: Config, c: Corridor)
    requires W.Plain(cfg, c)
    ensures (exists run :: LeftOut(cfg, c, run)) <==>
              || cfg.store == InMemory || cfg.canFind || cfg.misreports || cfg.lateRetries
              || (!c.settings.prefunded && !(cfg.gate && c.settings.rollback == Manual))
  {
    if Secluded(cfg, c.settings) {
      forall run ensures !LeftOut(cfg, c, run) {
        if LeftOut(cfg, c, run) { LandedMoneyIsRecorded(cfg, c, run); }
      }
    } else {
      var run := LeavesOut(cfg, c);
    }
  }

  lemma LeavesOut(cfg: Config, c: Corridor) returns (run: seq<Move>)
    requires W.Plain(cfg, c) && !Secluded(cfg, c.settings)
    ensures LeftOut(cfg, c, run)
  {
    if cfg.store == InMemory { run := StaleFailureInMemory(cfg, c); }
    else if cfg.canFind { run := FailsWhileTheWinnerPays(cfg, c); }
    else if !Truthful(cfg) { run := LosesPaymentAlone(cfg, c); }
    else if !cfg.gate { run := ParkedWhileTheWinnerPays(cfg, c); }
    else { run := RecoveredWhileTheWinnerPays(cfg, c); }
  }

  // ----- A settlement overwritten --------------------------------------------------------------------------

  /** The row says what was settled and that it was refunded, and there is no refund to show for it. */
  ghost predicate Overwritten(cfg: Config, c: Corridor, run: seq<Move>) {
    && Reaches(cfg, run).Some? && OneManifest(run, HashOf(c))
    && var sh := Reaches(cfg, run).value.sh;
    && sh.row.Some? && HasSettlementRef(sh.row.value) && Bare(sh.row.value, sh.reported)
  }

  /** A process whose submit failed, about to reverse what it takes for nothing. */
  ghost predicate Reverser(p: Process) {
    && !Stranger(p) && p.run.state in {Settling, Retrying} && p.entered in {Created, Opened, Funded}
    && (p.stage.Refused? || (p.claimed && p.stage == Rested)) && Unsettled(p.run) && p.run.refundId.None?
    && p.c.settings.rollback == RefundSender
  }

  const WHY := "SETTLEMENT_FAILED: the submit failed"

  lemma ReversersRefund(cfg: Config, p: Process)
    requires Reverser(p) && (p.claimed || !cfg.gate) && (p.claimed ==> p.entered == Created)
    ensures var r := Runs.Step(p.run, Recovering);
            && MayWrite(cfg, p, r)
            && MayWrite(cfg, AfterWrite(p, r), Runs.Step(r, Refunded).(lastError := Some(WHY)))
  {
    ReversersRecover(cfg, p);
    RecoveredRefunds(cfg, AfterWrite(p, Runs.Step(p.run, Recovering)));
  }

  lemma ReversersRecover(cfg: Config, p: Process)
    requires Reverser(p) && (p.claimed || !cfg.gate) && (p.claimed ==> p.entered == Created)
    ensures MayWrite(cfg, p, Runs.Step(p.run, Recovering))
  {
  }

  lemma RecoveredRefunds(cfg: Config, p: Process)
    requires p.run.state == Recovering && p.stage == Idle && !Stranger(p) && Reverses(p)
    requires !HasSettlementRef(p.run) && p.run.refundId.None? && (p.claimed ==> p.entered == Created)
    ensures MayWrite(cfg, p, Runs.Step(p.run, Refunded).(lastError := Some(WHY)))
  {
  }

  /** It recovers, too late for the row, and writes `refunded` over the settlement. */
  lemma RefundsOver(cfg: Config, run: seq<Move>, s: Many, pid: nat) returns (run': seq<Move>, s': Many)
    requires Reaches(cfg, run) == Some(s) && pid in s.procs && s.procs[pid].Live?
    requires Reverser(s.procs[pid].p) && (s.procs[pid].p.claimed || !cfg.gate)
    requires s.procs[pid].p.claimed ==> s.procs[pid].p.entered == Created
    requires cfg.store == Postgres && s.sh.row.Some? && Recorded(s.sh.row.value) && s.sh.row.value.refundId.None?
    requires s.sh.row.value.version < s.procs[pid].p.run.version + 2 && !s.sh.reported
    ensures Reaches(cfg, run') == Some(s') && GoesOn(run, run')
    ensures s'.sh.row.Some? && Recorded(s'.sh.row.value) && Bare(s'.sh.row.value, s'.sh.reported)
  {
    var r := Runs.Step(s.procs[pid].p.run, Recovering);
    ReversersRefund(cfg, s.procs[pid].p);
    run', s' := WritesTwice(cfg, run, s, pid, r, Runs.Step(r, Refunded).(lastError := Some(WHY)));
  }

  /** Two resumers submit; one payment is recorded, the other is refused. */
  lemma RefusedOverPaid(cfg: Config, c: Corridor) returns (run: seq<Move>)
    requires W.Plain(cfg, c) && cfg.store == Postgres && cfg.canFind && !cfg.gate
    requires c.settings.rollback == RefundSender
    ensures Overwritten(cfg, c, run)
  {
    var s: Many;
    run, s := OneHasPaid(cfg, c);
    var before := run;
    run, s := IsRefused(cfg, run, s, 2);
    run, s := RefundsOver(cfg, run, s, 2);
    StillOneManifest(before, run, HashOf(c));
  }

  /** Two have looked, and one has paid and recorded it. */
  lemma OneHasPaid(cfg: Config, c: Corridor) returns (run: seq<Move>, s: Many)
    requires W.Plain(cfg, c) && cfg.store == Postgres && cfg.canFind && !cfg.gate
    ensures Reaches(cfg, run) == Some(s) && OneManifest(run, HashOf(c))
    ensures 2 in s.procs && s.procs[2] == Live(ALooker(cfg, c)) && Payer(cfg, ALooker(cfg, c))
    ensures s.sh.row.Some? && Recorded(s.sh.row.value) && s.sh.row.value.refundId.None? && !s.sh.reported
    ensures s.sh.row.value.version == ALooker(cfg, c).run.version + 3
  {
    run, s := BothLook(cfg, c);
    var before := run;
    LookersPay(cfg, c);
    run, s := PaysAndRecords(cfg, run, s, 1);
    StillOneManifest(before, run, HashOf(c));
  }

  lemma PaysAndRecords(cfg: Config, run: seq<Move>, s: Many, pid: nat) returns (run': seq<Move>, s': Many)
    requires Reaches(cfg, run) == Some(s) && pid in s.procs && s.procs[pid].Live?
    requires Payer(cfg, s.procs[pid].p) && s.procs[pid].p.run.state == s.procs[pid].p.entered
    requires cfg.store == Postgres && s.sh.row == Some(s.procs[pid].p.run) && s.procs[pid].p.run.refundId.None?
    ensures Reaches(cfg, run') == Some(s') && GoesOn(run, run')
    ensures pid in s'.procs && s'.procs == s.procs[pid := s'.procs[pid]]
    ensures s'.sh.reported == s.sh.reported && s'.sh.row.Some?
    ensures var row, now := s.sh.row.value, s'.sh.row.value;
            now.version == row.version + 3 && Recorded(now) && now.refundId.None?
  {
    run', s' := ResumerSettles(cfg, run, s, pid);
    var p, row := s'.procs[pid].p, s'.sh.row.value;
    run', s' := SubmitsAndRecords(cfg, run', s', pid);
    RecordedRow(row, RequestOf(p.run, p.c.settings), Stellar("a"));
    assert s'.procs == s.procs[pid := s'.procs[pid]];
  }

  lemma SubmitsAndRecords(cfg: Config, run: seq<Move>, s: Many, pid: nat) returns (run': seq<Move>, s': Many)
    requires Reaches(cfg, run) == Some(s) && pid in s.procs && s.procs[pid].Live? && s.sh.row.Some?
    requires var p := s.procs[pid].p; MaySubmit(cfg, p, RequestOf(p.run, p.c.settings)) && !Stranger(p)
    ensures Reaches(cfg, run') == Some(s') && GoesOn(run, run')
    ensures pid in s'.procs && s'.procs == s.procs[pid := s'.procs[pid]]
    ensures var p := s.procs[pid].p;
            var r := RecordSettlement(Runs.Step(p.run, Settled), RequestOf(p.run, p.c.settings), Stellar("a"));
            s'.sh.row == Some(Put(cfg.store, s.sh.row, r)) && s'.sh.reported == s.sh.reported
  {
    var req := RequestOf(s.procs[pid].p.run, s.procs[pid].p.c.settings);
    run', s' := ActsSubmit(cfg, run, s, pid, req, Stellar("a"));
    run', s' := Records(cfg, run', s', pid, req, Stellar("a"));
    assert s'.procs == s.procs[pid := s'.procs[pid]];
  }

  lemma Records(cfg: Config, run: seq<Move>, s: Many, pid: nat, req: Request, ref: Ref)
    returns (run': seq<Move>, s': Many)
    requires Reaches(cfg, run) == Some(s) && pid in s.procs && s.procs[pid].Live?
    requires var p := s.procs[pid].p; p.run.state == Settling && p.stage == Holding(req, ref) && !Stranger(p)
    ensures Reaches(cfg, run') == Some(s') && GoesOn(run, run')
    ensures var r := RecordSettlement(Runs.Step(s.procs[pid].p.run, Settled), req, ref);
            && s'.sh == s.sh.(row := Some(Put(cfg.store, s.sh.row, r)))
            && s'.procs == s.procs[pid := Live(AfterWrite(s.procs[pid].p, r))]
  {
    run', s' := ActsWrite(cfg, run, s, pid, RecordSettlement(Runs.Step(s.procs[pid].p.run, Settled), req, ref));
  }

  lemma IsRefused(cfg: Config, run: seq<Move>, s: Many, pid: nat) returns (run': seq<Move>, s': Many)
    requires Reaches(cfg, run) == Some(s) && pid in s.procs && s.procs[pid].Live?
    requires var p := s.procs[pid].p;
             && Payer(cfg, p) && p.run.state == p.entered && Unsettled(p.run) && p.run.refundId.None?
             && p.c.settings.rollback == RefundSender
    requires cfg.store == Postgres && s.sh.row.Some? && s.procs[pid].p.run.version + 2 < s.sh.row.value.version
    ensures Reaches(cfg, run') == Some(s') && GoesOn(run, run')
    ensures s'.sh.row == s.sh.row && s'.sh.reported == s.sh.reported && pid in s'.procs && s'.procs[pid].Live?
    ensures Reverser(s'.procs[pid].p) && !s'.procs[pid].p.claimed
    ensures s'.procs[pid].p.run.version == s.procs[pid].p.run.version + 2
  {
    run', s' := ResumerSettles(cfg, run, s, pid);
    var p := s'.procs[pid].p;
    run', s' := Acts(cfg, run', s', pid, Submit(RequestOf(p.run, p.c.settings), Rejected(false)));
  }

  /** The winner's submit is reported as a failure, and lands; another process finds the payment and
      records it before the winner ends the run. */
  lemma RefusedOverFound(cfg: Config, c: Corridor) returns (run: seq<Move>)
    requires W.Plain(cfg, c) && cfg.store == Postgres && cfg.canFind && !Truthful(cfg)
    requires c.settings.rollback == RefundSender
    ensures Overwritten(cfg, c, run)
  {
    var s: Many;
    run, s := FoundWhileRefused(cfg, c);
    var before := run;
    if s.procs[0].p.stage == Refused(true) && c.settings.maxRetries > 0 {
      run, s := RetriesUnseen(cfg, run, s, 0);
    }
    run, s := RefundsOver(cfg, run, s, 0);
    StillOneManifest(before, run, HashOf(c));
  }

  /** The payment is out and on the row, and the winner, whose submit failed, does not know. */
  ghost predicate Unaware(cfg: Config, c: Corridor, s: Many) {
    && 0 in s.procs && s.procs[0].Live? && Reverser(s.procs[0].p) && s.procs[0].p.claimed
    && s.procs[0].p.entered == Created && s.procs[0].p.attempt == 0 && s.procs[0].p.c == c
    && s.procs[0].p.run.state == Settling && s.procs[0].p.stage.Refused?
    && s.sh.row.Some? && Recorded(s.sh.row.value) && s.sh.row.value.refundId.None? && !s.sh.reported
    && s.sh.row.value.version == s.procs[0].p.run.version + 1
  }

  lemma FoundWhileRefused(cfg: Config, c: Corridor) returns (run: seq<Move>, s: Many)
    requires W.Plain(cfg, c) && cfg.store == Postgres && cfg.canFind && !Truthful(cfg)
    requires c.settings.rollback == RefundSender
    ensures Reaches(cfg, run) == Some(s) && OneManifest(run, HashOf(c)) && Unaware(cfg, c, s)
  {
    run, s := SeenWhileRefused(cfg, c);
    var before, row := run, s.sh.row.value;
    run, s := FindsIt(cfg, run, s, 1);
    var held := s.procs[1].p.stage;
    run, s := Records(cfg, run, s, 1, held.held, held.ref);
    StillOneManifest(before, run, HashOf(c));
    RecordedRow(row, held.held, held.ref);
  }

  lemma RecordedRow(row: Run, req: Request, ref: Ref)
    requires row.refundId.None?
    ensures var now := PgMerge(row, RecordSettlement(Runs.Step(row, Settled), req, ref));
            now.version == row.version + 1 && Recorded(now) && now.refundId.None?
  {
  }

  /** ... another process has read the row. */
  lemma SeenWhileRefused(cfg: Config, c: Corridor) returns (run: seq<Move>, s: Many)
    requires W.Plain(cfg, c) && cfg.canFind && !Truthful(cfg) && c.settings.rollback == RefundSender
    ensures Reaches(cfg, run) == Some(s) && OneManifest(run, HashOf(c)) && s.sh.row.Some? && !s.sh.reported
    ensures 0 in s.procs && s.procs[0].Live? && Reverser(s.procs[0].p) && s.procs[0].p.claimed
    ensures var p := s.procs[0].p;
            && p.entered == Created && p.attempt == 0 && p.c == c && p.run.state == Settling && p.stage.Refused?
            && p.run == s.sh.row.value && p.run.manifestHash == Some(HashOf(c))
            && FirstPaid(s.sh.paid, RequestOf(p.run, c.settings)).Some?
    ensures 1 in s.procs && s.procs[1] == Start(c, false, false, s.sh.row.value)
  {
    var h, one := LandsRefused(cfg, c);
    Solo(cfg, h, 0);
    run := Tag(h, 0);
    CallsMeansOneManifest(h, c);
    run, s := Joins(cfg, run, Reaches(cfg, run).value, 1, c);
  }

  /** One process, its payment landed and its submit reported as a failure. */
  lemma LandsRefused(cfg: Config, c: Corridor) returns (h: seq<Event>, s: Sys)
    requires W.Plain(cfg, c) && cfg.canFind && !Truthful(cfg) && c.settings.rollback == RefundSender
    ensures W.AtWork(cfg, h, s) && W.Once(h) && s.lo.p.c == c && !s.lo.p.dry && s.lo.p.claimed && s.lo.p.attempt == 0
    ensures s.lo.p.entered == Created && s.lo.p.run.state == Settling && s.lo.p.stage.Refused? && Reverser(s.lo.p)
    ensures s.lo.p.run.manifestHash == Some(HashOf(c)) && !s.sh.reported
    ensures FirstPaid(s.sh.paid, RequestOf(s.lo.p.run, c.settings)).Some?
  {
    if cfg.misreports {
      h, s := W.FirstTry(cfg, c, Misreported(Stellar("a"), false));
    } else {
      h, s := W.FirstTry(cfg, c, Delayed(true));
      h, s := W.Lands(cfg, h, s);
    }
    InvHolds(cfg, h);
    assert s.sh.paid[0].req == TheRequest(s.sh);
    assert s.sh.paid[0] in s.sh.paid;
  }

  lemma FindsIt(cfg: Config, run: seq<Move>, s: Many, pid: nat) returns (run': seq<Move>, s': Many)
    requires Reaches(cfg, run) == Some(s) && pid in s.procs && s.procs[pid].Live? && cfg.canFind
    requires var p := s.procs[pid].p;
             && !p.claimed && !Repinned(p) && p.run.state == p.entered == Settling && p.stage == Idle
             && FirstPaid(s.sh.paid, RequestOf(p.run, p.c.settings)).Some?
    ensures Reaches(cfg, run') == Some(s') && GoesOn(run, run') && s'.sh == s.sh
    ensures var p := s.procs[pid].p; var req := RequestOf(p.run, p.c.settings);
            s'.procs == s.procs[pid := Live(p.(stage := Holding(req, FirstPaid(s.sh.paid, req).value)))]
  {
    var req := RequestOf(s.procs[pid].p.run, s.procs[pid].p.c.settings);
    run', s' := Acts(cfg, run, s, pid, Find(req, FirstPaid(s.sh.paid, req)));
  }

  lemma RetriesUnseen(cfg: Config, run: seq<Move>, s: Many, pid: nat) returns (run': seq<Move>, s': Many)
    requires Reaches(cfg, run) == Some(s) && pid in s.procs && s.procs[pid].Live? && Reverser(s.procs[pid].p)
    requires var p := s.procs[pid].p;
             && p.claimed && p.run.state == Settling && p.stage == Refused(true) && p.attempt == 0
             && p.c.settings.maxRetries > 0 && p.entered == Created
    requires cfg.store == Postgres && s.sh.row.Some? && s.procs[pid].p.run.version < s.sh.row.value.version
    ensures Reaches(cfg, run') == Some(s') && GoesOn(run, run')
    ensures s'.sh.row == s.sh.row && s'.sh.reported == s.sh.reported && pid in s'.procs && s'.procs[pid].Live?
    ensures var p' := s'.procs[pid].p;
            && Reverser(p') && p'.claimed && p'.entered == Created
            && p'.run.version == s.procs[pid].p.run.version + 1
  {
    var run1, s1 := ActsWrite(cfg, run, s, pid, Runs.Step(s.procs[pid].p.run, Retrying));
    run', s' := BacksOffUnseen(cfg, run1, s1, pid);
    GoesOnAndOn(run, run1, run');
  }

  lemma BacksOffUnseen(cfg: Config, run: seq<Move>, s: Many, pid: nat) returns (run': seq<Move>, s': Many)
    requires Reaches(cfg, run) == Some(s) && pid in s.procs && s.procs[pid].Live?
    requires var p := s.procs[pid].p; p.claimed && p.run.state == Retrying && p.stage == Idle && p.attempt == 1
    ensures Reaches(cfg, run') == Some(s') && GoesOn(run, run')
    ensures s'.sh.row == s.sh.row && s'.sh.reported == s.sh.reported
    ensures s'.procs == s.procs[pid := Live(s.procs[pid].p.(stage := Rested))]
  {
    run', s' := Acts(cfg, run, s, pid, Backoff(BackoffMs(1)));
  }

  // ----- ... exactly ------------------------------------------------------------------------------------------

  /** Under one manifest a row is only refunded bare by policy. */
  ghost predicate BareByPolicy(c: Corridor, s: Many) {
    && (forall pid | pid in s.procs :: Under(c, s.procs[pid]))
    && (forall pid | Alive(s, pid) :: HeardOf(s.sh, s.procs[pid].p.stage))
    && (s.sh.row.Some? && Bare(s.sh.row.value, s.sh.reported) ==> c.settings.rollback == RefundSender)
  }

  lemma BareWrites(cfg: Config, p: Process, run: Run, reported: bool)
    requires MayWrite(cfg, p, run) && Bare(run, reported) && (p.stage.Reported? ==> reported)
    ensures p.c.settings.rollback == RefundSender
  {
  }

  lemma BareStep(cfg: Config, c: Corridor, s: Many, t: Move)
    requires Parsed(cfg.schema, c) && BareByPolicy(c, s)
    requires Moved(cfg, s, t).Some? && (t.e.Boot? ==> HashOf(t.e.c) == HashOf(c))
    ensures BareByPolicy(c, Moved(cfg, s, t).value)
  {
    var s' := Moved(cfg, s, t).value;
    var lo := if t.pid in s.procs then s.procs[t.pid] else Off;
    Safety.KeepsItsCorridor(cfg, lo, t.e);
    if t.e.Boot? { SameHashSameSettings(cfg.schema, t.e.c, c); }
    else { assert Under(c, lo); }
    forall pid | Alive(s', pid) ensures HeardOf(s'.sh, s'.procs[pid].p.stage) {
      if pid != t.pid {
        assert Alive(s, pid);
        HearsNoLess(cfg, s.sh, t.e);
      } else {
        HearsTheTruth(cfg, s.sh, lo, t.e);
      }
    }
    RowsGetBareByPolicy(cfg, c, s.sh, lo, t.e);
  }

  lemma HearsNoLess(cfg: Config, sh: Shared, e: Event)
    requires SharedNext(cfg, sh, e).Some?
    ensures var sh' := SharedNext(cfg, sh, e).value; (sh.reported ==> sh'.reported) && (sh.confirmed ==> sh'.confirmed)
  {
  }

  lemma HearsTheTruth(cfg: Config, sh: Shared, lo: Local, e: Event)
    requires LocalNext(cfg, lo, e).Some? && SharedNext(cfg, sh, e).Some?
    requires lo.Live? ==> HeardOf(sh, lo.p.stage)
    ensures var lo' := LocalNext(cfg, lo, e).value; lo'.Live? ==> HeardOf(SharedNext(cfg, sh, e).value, lo'.p.stage)
  {
    HearsNoLess(cfg, sh, e);
    if lo.Live? && !e.Boot? && !e.Land? && !e.Write? && !e.Submit? {
      ProcessRests(cfg, lo.p, e);
      SharedRests(cfg, sh, e);
    }
  }

  lemma RowsGetBareByPolicy(cfg: Config, c: Corridor, sh: Shared, lo: Local, e: Event)
    requires LocalNext(cfg, lo, e).Some? && SharedNext(cfg, sh, e).Some? && Under(c, lo)
    requires lo.Live? ==> HeardOf(sh, lo.p.stage)
    requires sh.row.Some? && Bare(sh.row.value, sh.reported) ==> c.settings.rollback == RefundSender
    ensures var sh' := SharedNext(cfg, sh, e).value;
            sh'.row.Some? && Bare(sh'.row.value, sh'.reported) ==> c.settings.rollback == RefundSender
  {
    if e.Write? && Bare(e.run, sh.reported) { BareWrites(cfg, lo.p, e.run, sh.reported); }
  }

  lemma {:induction false} BareByPolicyHolds(cfg: Config, c: Corridor, run: seq<Move>)
    requires Parsed(cfg.schema, c) && Reaches(cfg, run).Some? && OneManifest(run, HashOf(c))
    ensures BareByPolicy(c, Reaches(cfg, run).value)
  {
    if run != [] {
      var n := |run| - 1;
      BareByPolicyHolds(cfg, c, run[..n]);
      BareStep(cfg, c, Reaches(cfg, run[..n]).value, run[n]);
    }
  }

  /** Exactly when concurrent callers of one manifest can overwrite a recorded settlement with
      `refunded`, and no refund to show for it: under `refund_sender`, in SQL, with a submitter that
      can look, unless there is a gate and reported failures are the truth. */
  lemma OverwrittenExactly(cfg: Config, c: Corridor)
    requires W.Plain(cfg, c)
    ensures (exists run :: Overwritten(cfg, c, run)) <==>
              && c.settings.rollback == RefundSender && cfg.store == Postgres && cfg.canFind
              && (!cfg.gate || cfg.misreports || cfg.lateRetries)
  {
    if c.settings.rollback == RefundSender && cfg.store == Postgres && !Calm(cfg) {
      var run: seq<Move>;
      if cfg.gate { run := RefusedOverFound(cfg, c); } else { run := RefusedOverPaid(cfg, c); }
    } else {
      forall run ensures !Overwritten(cfg, c, run) {
        if Overwritten(cfg, c, run) {
          BareByPolicyHolds(cfg, c, run);
          ConcurrentSettledRunsEndWell(cfg, c, run);
        }
      }
    }
  }

  // ----- Outcomes told twice ------------------------------------------------------------------------------------

  ghost predicate ToldTwice(cfg: Config, c: Corridor, run: seq<Move>) {
    Reaches(cfg, run).Some? && OneManifest(run, HashOf(c)) && |Reaches(cfg, run).value.sh.outcomes| >= 2
  }

  /** Two processes that resume the same settled run both complete it, and both say so. */
  lemma TwoWorkersTellTwice(cfg: Config, c: Corridor) returns (run: seq<Move>)
    requires W.Plain(cfg, c) && cfg.health
    ensures ToldTwice(cfg, c, run)
  {
    var s: Many;
    run, s := TwoResumeTheSettled(cfg, c);
    var before := run;
    run, s := CompletesAndTells(cfg, run, s, 1);
    run, s := CompletesAndTells(cfg, run, s, 2);
    StillOneManifest(before, run, HashOf(c));
  }

  lemma CompletesAndTells(cfg: Config, run: seq<Move>, s: Many, pid: nat) returns (run': seq<Move>, s': Many)
    requires Reaches(cfg, run) == Some(s) && pid in s.procs && s.procs[pid].Live? && SettledReader(s.procs[pid].p)
    requires cfg.health
    ensures Reaches(cfg, run') == Some(s') && GoesOn(run, run') && |s'.sh.outcomes| == |s.sh.outcomes| + 1
    ensures pid in s'.procs && s'.procs == s.procs[pid := s'.procs[pid]]
  {
    run', s' := IsConfirmed(cfg, run, s, pid);
    run', s' := Completes(cfg, run', s', pid);
    run', s' := Tells(cfg, run', s', pid);
    assert s'.procs == s.procs[pid := s'.procs[pid]];
  }

  lemma Tells(cfg: Config, run: seq<Move>, s: Many, pid: nat) returns (run': seq<Move>, s': Many)
    requires Reaches(cfg, run) == Some(s) && pid in s.procs && s.procs[pid].Live? && cfg.health
    requires s.procs[pid].p.run.state == Completed && !s.procs[pid].p.judged
    ensures Reaches(cfg, run') == Some(s') && GoesOn(run, run') && |s'.sh.outcomes| == |s.sh.outcomes| + 1
    ensures pid in s'.procs && s'.procs == s.procs[pid := s'.procs[pid]]
  {
    run', s' := Acts(cfg, run, s, pid, Event.Outcome(true));
  }

  lemma IsConfirmed(cfg: Config, run: seq<Move>, s: Many, pid: nat) returns (run': seq<Move>, s': Many)
    requires Reaches(cfg, run) == Some(s) && pid in s.procs && s.procs[pid].Live? && SettledReader(s.procs[pid].p)
    ensures Reaches(cfg, run') == Some(s') && GoesOn(run, run') && s'.sh == s.sh.(confirmed := true)
    ensures s'.procs == s.procs[pid := Live(s.procs[pid].p.(stage := Confirmed))]
  {
    run', s' := Acts(cfg, run, s, pid, Reconcile(true));
  }

  lemma Completes(cfg: Config, run: seq<Move>, s: Many, pid: nat) returns (run': seq<Move>, s': Many)
    requires Reaches(cfg, run) == Some(s) && pid in s.procs && s.procs[pid].Live?
    requires var p := s.procs[pid].p;
             !p.claimed && !Repinned(p) && p.entered == p.run.state == Settled && p.stage == Confirmed && !p.judged
    ensures Reaches(cfg, run') == Some(s') && GoesOn(run, run') && s'.sh.outcomes == s.sh.outcomes
    ensures pid in s'.procs && s'.procs == s.procs[pid := s'.procs[pid]] && s'.procs[pid].Live?
    ensures s'.procs[pid].p.run.state == Completed && !s'.procs[pid].p.judged
  {
    var r := Runs.Step(s.procs[pid].p.run, Reconciled);
    run', s' := WritesTwice(cfg, run, s, pid, r, Runs.Step(r, Completed));
  }

  lemma {:induction false} NobodyTells(cfg: Config, run: seq<Move>)
    requires !cfg.health && Reaches(cfg, run).Some?
    ensures Reaches(cfg, run).value.sh.outcomes == []
  {
    if run != [] {
      var n := |run| - 1;
      NobodyTells(cfg, run[..n]);
      SaysNothing(cfg, Reaches(cfg, run[..n]).value, run[n]);
    }
  }

  lemma SaysNothing(cfg: Config, s: Many, t: Move)
    requires !cfg.health && Moved(cfg, s, t).Some?
    ensures Moved(cfg, s, t).value.sh.outcomes == s.sh.outcomes
  {
  }

  /** Exactly when concurrent callers of one manifest can tell the breaker of one key twice: when there
      is a breaker. */
  lemma ToldTwiceExactly(cfg: Config, c: Corridor)
    requires W.Plain(cfg, c)
    ensures (exists run :: ToldTwice(cfg, c, run)) <==> cfg.health
  {
    if cfg.health {
      var run := TwoWorkersTellTwice(cfg, c);
    } else {
      forall run ensures !ToldTwice(cfg, c, run) {
        if Reaches(cfg, run).Some? { NobodyTells(cfg, run); }
      }
    }
  }
}
