/**
 * How runs end when any number of processes work on one key under one manifest: what a row that
 * says what was settled can still become, and when money can go unrecorded.
 */
module Endings {
  import opened Prelude
  import opened States
  import opened Runs
  import opened Stores
  import opened Protocol
  import opened OneWorker
  import opened Interleaving
  import Safety

  // ----- How far a run is from its settlement ------------------------------------------------------

  /** States on the way to a settlement. */
  predicate OnTrack(s: State) {
    MayYetSettle(s) || s == Settling
  }

  predicate Recorded(run: Run) {
    run.settlementRef.Some?
  }

  /** The fewest writes between this run and one that records its settlement. */
  function StepsLeft(run: Run, prefunded: bool): nat {
    match run.state
    case Settling => 1
    case Verifying => 2
    case Retrying => 3
    case Funded => 3
    case Funding => if run.sourceTransactionId.Some? then 4 else 5
    case Opened => if prefunded then 3 else 6
    case Compliant => if prefunded then 4 else 7
    case Quoted => if prefunded then 5 else 8
    case Created => if prefunded then 6 else 9
    case _ => 0
  }

  /** The version this run's settlement is recorded under at the earliest. */
  function Goal(run: Run, prefunded: bool): nat {
    run.version + StepsLeft(run, prefunded)
  }

  /** A process that knows of no settlement writes `failed`, `refunded` without evidence, or a state
      on the way to settlement only under versions below this. */
  function Reach(p: Process): nat {
    if OnTrack(p.run.state) then Goal(p.run, p.c.settings.prefunded)
    else if p.run.state in {Recovering, RefundPending} && p.entered !in {Recovering, RefundPending} then
      p.run.version + 2
    else 0
  }

  // ----- One write ---------------------------------------------------------------------------------

  /** A settlement is recorded together with its reference, and only settled runs have one. */
  predicate Tidy(run: Run) {
    && (run.settlementRef.None? ==> run.stellarTxHash.None?)
    && (run.settlementRef.Some? ==> !OnTrack(run.state))
    && (run.state in {Settled, Reconciled, Completed} ==> run.settlementRef.Some?)
  }

  /** `refunded` with nothing to show for it but the policy. */
  predicate Bare(run: Run, reported: bool) {
    run.state == Refunded && run.refundId.None? && !reported
  }

  /** How a run that says what was settled may stand. */
  predicate EndsWell(run: Run, rollback: Rollback, sh: Shared) {
    Recorded(run) ==>
      && (run.state == Failed ==> rollback == Manual) && !Bare(run, sh.reported)
      && (run.state in {Reconciled, Completed} ==> sh.confirmed)
  }

  /** What the anchor told the process, it did say. */
  predicate HeardOf(sh: Shared, stage: Stage) {
    (stage.Reported? ==> sh.reported) && (stage.Confirmed? ==> sh.confirmed)
  }

  /** What every write has in common, whoever makes it. */
  ghost predicate PlainWrite(p: Process, run: Run) {
    && run.version == p.run.version + 1 && run.manifestHash == p.run.manifestHash && Tidy(run)
    && FollowsTheTable(p.run.state, run.state)
    && (Recorded(p.run) ==> Recorded(run))
    && (Recorded(run) ==> Recorded(p.run) || (p.stage.Holding? && run.state == Settled))
  }

  lemma WritesArePlain(cfg: Config, p: Process, run: Run)
    requires MayWrite(cfg, p, run) && Tidy(p.run)
    ensures PlainWrite(p, run)
  {
  }

  /** A process that knows the settlement ends its run well. */
  lemma SettledWritesEndWell(cfg: Config, p: Process, run: Run, sh: Shared)
    requires MayWrite(cfg, p, run) && Tidy(p.run) && !Stranger(p) && Recorded(run)
    requires EndsWell(p.run, p.c.settings.rollback, sh) && HeardOf(sh, p.stage)
    ensures EndsWell(run, p.c.settings.rollback, sh)
  {
  }

  /** A resumed process without a settlement stays below its reach. */
  lemma ResumedWritesStayBelow(cfg: Config, p: Process, run: Run, reported: bool)
    requires MayWrite(cfg, p, run) && !p.claimed && Tidy(p.run) && !Stranger(p) && !Recorded(run)
    requires !p.stage.Refused? && (p.stage.Clear? ==> cfg.gate)
    requires p.stage.Reported? ==> reported
    requires p.stage.Clear? ==> OnTrack(p.run.state) && (p.run.state == Settling ==> p.entered == Settling)
    ensures Reach(AfterWrite(p, run)) <= Reach(p)
    ensures OnTrack(run.state) || run.state == Failed || Bare(run, reported) ==> run.version < Reach(p)
  {
  }

  /** The winner's goal only moves away. */
  lemma TheGoalOnlyGrows(cfg: Config, p: Process, run: Run)
    requires MayWrite(cfg, p, run) && p.claimed && Tidy(p.run)
    requires p.run.state == Opened || Unopened(p.run.state) ==> p.run.sourceTransactionId.None?
    requires p.run.state == Opened && p.stage.Gated? ==> p.c.settings.prefunded
    requires OnTrack(p.run.state) || Recorded(p.run)
    ensures OnTrack(run.state) || Recorded(run) ==>
              Goal(p.run, p.c.settings.prefunded) <= Goal(run, p.c.settings.prefunded)
  {
  }

  /** What the SQL row becomes when a run is put. */
  lemma Merges(row: Run, run: Run)
    requires Tidy(row) && Tidy(run)
    ensures var now := PgMerge(row, run);
            if run.version <= row.version then now == row
            else
              && now.version == run.version && now.state == run.state
              && (Recorded(now) <==> Recorded(row) || Recorded(run))
              && (now.settlementRef.None? ==> now.stellarTxHash.None?)
              && (now.state in {Settled, Reconciled, Completed} ==> Recorded(run))
              && (row.manifestHash.Some? ==> now.manifestHash == row.manifestHash)
              && (row.refundId.Some? || run.refundId.Some? ==> now.refundId.Some?)
              && (run.sourceTransactionId.Some? ==> now.sourceTransactionId.Some?)
  {
  }

  // ----- The invariant --------------------------------------------------------------------------------

  /** Where no process can pay or end a run on a look that is out of date: the submitter cannot look,
      or there is a gate and reported failures are the truth. */
  predicate Calm(cfg: Config) {
    !cfg.canFind || (cfg.gate && Truthful(cfg))
  }

  ghost predicate Under(c: Corridor, lo: Local) {
    var own := Safety.CorridorOf(lo);
    own.Some? ==> HashOf(own.value) == HashOf(c) && own.value.settings == c.settings
  }

  ghost predicate RowOk(c: Corridor, sh: Shared) {
    && sh.row.Some? && sh.row.value.manifestHash == Some(HashOf(c)) && Tidy(sh.row.value)
    && EndsWell(sh.row.value, c.settings.rollback, sh)
  }

  ghost predicate ProcOk(cfg: Config, c: Corridor, sh: Shared, p: Process) {
    && p.c.settings == c.settings && HashOf(p.c) == HashOf(c) && p.run.manifestHash == Some(HashOf(c))
    && Tidy(p.run) && EndsWell(p.run, c.settings.rollback, sh) && HeardOf(sh, p.stage)
    && sh.row.Some? && p.run.version <= sh.row.value.version
    && (if p.claimed then WinnerOk(cfg, sh, p) else ResumerOk(cfg, p))
  }

  ghost predicate WinnerOk(cfg: Config, sh: Shared, p: Process) {
    && (Unopened(p.run.state) || p.run.state == Opened ==> p.run.sourceTransactionId.None?)
    && (p.run.state == Opened && p.stage.Gated? ==> p.c.settings.prefunded)
    && (Truthful(cfg) && !Recorded(p.run) && !OnTrack(p.run.state) ==> sh.paid == [] && sh.inflight == [])
  }

  predicate ResumerOk(cfg: Config, p: Process) {
    && !p.stage.Refused? && (p.stage.Holding? ==> cfg.canFind)
    && (p.stage.Clear? ==>
          cfg.gate && cfg.canFind && OnTrack(p.run.state) && (p.run.state == Settling ==> p.entered == Settling))
  }

  /** The winner and the row. */
  ghost predicate WinnerRow(cfg: Config, c: Corridor, sh: Shared, p: Process)
    requires sh.row.Some?
  {
    var row := sh.row.value;
    && (!Recorded(p.run) && Recorded(row) ==> cfg.canFind && sh.paid != [] && p.run.version < row.version)
    && ((OnTrack(p.run.state) || Recorded(p.run)) && !Recorded(row) && OnTrack(row.state) ==>
          Goal(row, c.settings.prefunded) <= Goal(p.run, c.settings.prefunded))
  }

  /** The winner and a process that resumed the key. */
  ghost predicate Pair(cfg: Config, c: Corridor, sh: Shared, p: Process, q: Process) {
    && (!Recorded(p.run) && (Recorded(q.run) || q.stage.Holding?) ==> cfg.canFind && sh.paid != [])
    && ((OnTrack(p.run.state) || Recorded(p.run)) && !Recorded(q.run) ==> Reach(q) <= Goal(p.run, c.settings.prefunded))
  }

  predicate Alive(s: Many, pid: nat) {
    pid in s.procs && s.procs[pid].Live?
  }

  ghost predicate Orderly(cfg: Config, c: Corridor, s: Many) {
    && (forall pid | pid in s.procs :: Under(c, s.procs[pid]))
    && (s.sh.row.Some? ==> RowOk(c, s.sh) && exists pid :: Claimed(s, pid))
    && (forall pid | Alive(s, pid) :: ProcOk(cfg, c, s.sh, s.procs[pid].p))
    && (forall w | Claimed(s, w) :: s.sh.row.Some? && WinnerRow(cfg, c, s.sh, s.procs[w].p))
    && (forall w, q | Claimed(s, w) && Alive(s, q) && !Claimed(s, q) :: Pair(cfg, c, s.sh, s.procs[w].p, s.procs[q].p))
  }

  /** A winner without its settlement, when the payment is out: it waits for the answer or has it. */
  lemma ThePayerKnows(cfg: Config, sh: Shared, p: Process)
    requires Sole(cfg, sh, p) && WinnerOk(cfg, sh, p) && Truthful(cfg) && !Recorded(p.run) && sh.paid != []
    ensures p.run.state == Settling && (p.stage.Holding? || p.stage == Lost)
  {
  }

  /** A settled row is past the goal of whoever won the claim. */
  lemma SettledRowsArePast(cfg: Config, c: Corridor, sh: Shared, p: Process)
    requires Calm(cfg) && ProcOk(cfg, c, sh, p) && p.claimed && Sole(cfg, sh, p) && WinnerRow(cfg, c, sh, p)
    requires Recorded(sh.row.value)
    ensures OnTrack(p.run.state) || Recorded(p.run)
    ensures Goal(p.run, c.settings.prefunded) <= sh.row.value.version
    ensures !Recorded(p.run) ==> p.run.state == Settling && (p.stage.Holding? || p.stage == Lost)
  {
    if !Recorded(p.run) { ThePayerKnows(cfg, sh, p); }
  }

  // ----- The winner writes ------------------------------------------------------------------------------

  /** What the winner's writes do, as far as the invariant is concerned. */
  ghost predicate WinnerWrite(cfg: Config, c: Corridor, sh: Shared, p: Process, run: Run) {
    && PlainWrite(p, run) && EndsWell(run, c.settings.rollback, sh)
    && (OnTrack(run.state) || Recorded(run) ==>
          && (OnTrack(p.run.state) || Recorded(p.run))
          && Goal(p.run, c.settings.prefunded) <= Goal(run, c.settings.prefunded))
    && (p.run.state == Settling && (p.stage.Holding? || p.stage == Lost) ==> Recorded(run))
    && WinnerOk(cfg, sh, AfterWrite(p, run))
  }

  lemma WinnerWriteFacts(cfg: Config, c: Corridor, sh: Shared, p: Process, run: Run)
    requires ProcOk(cfg, c, sh, p) && p.claimed && Sole(cfg, sh, p) && MayWrite(cfg, p, run)
    ensures WinnerWrite(cfg, c, sh, p, run)
  {
    WritesArePlain(cfg, p, run);
    if Recorded(run) { SettledWritesEndWell(cfg, p, run, sh); }
    if OnTrack(p.run.state) || Recorded(p.run) { TheGoalOnlyGrows(cfg, p, run); }
    WinnerStaysOk(cfg, sh, p, run);
  }

  lemma WinnerStaysOk(cfg: Config, sh: Shared, p: Process, run: Run)
    requires p.claimed && Sole(cfg, sh, p) && WinnerOk(cfg, sh, p) && Tidy(p.run) && MayWrite(cfg, p, run)
    ensures WinnerOk(cfg, sh, AfterWrite(p, run))
    ensures p.run.state == Settling && (p.stage.Holding? || p.stage == Lost) ==> Recorded(run)
  {
  }

  lemma RowAfterWinner(cfg: Config, c: Corridor, sh: Shared, p: Process, run: Run)
    requires Calm(cfg) && RowOk(c, sh) && ProcOk(cfg, c, sh, p) && p.claimed && Sole(cfg, sh, p)
    requires WinnerRow(cfg, c, sh, p) && WinnerWrite(cfg, c, sh, p, run)
    ensures var sh' := sh.(row := Some(PgMerge(sh.row.value, run)));
            RowOk(c, sh') && WinnerRow(cfg, c, sh', AfterWrite(p, run))
  {
    Merges(sh.row.value, run);
    if Recorded(sh.row.value) { SettledRowsArePast(cfg, c, sh, p); }
  }

  // ----- A resumed process writes -----------------------------------------------------------------------

  /** What a resumed process's writes do, as far as the invariant is concerned. */
  ghost predicate ResumerWrite(cfg: Config, c: Corridor, sh: Shared, q: Process, run: Run) {
    && PlainWrite(q, run) && EndsWell(run, c.settings.rollback, sh) && ResumerOk(cfg, AfterWrite(q, run))
    && (!Recorded(run) ==>
          && Reach(AfterWrite(q, run)) <= Reach(q)
          && (OnTrack(run.state) || run.state == Failed || Bare(run, sh.reported) ==> run.version < Reach(q))
          && (OnTrack(run.state) ==> Goal(run, c.settings.prefunded) <= Reach(q)))
  }

  lemma ResumerWriteFacts(cfg: Config, c: Corridor, sh: Shared, q: Process, run: Run)
    requires ProcOk(cfg, c, sh, q) && !q.claimed && MayWrite(cfg, q, run)
    ensures ResumerWrite(cfg, c, sh, q, run)
  {
    WritesArePlain(cfg, q, run);
    if Recorded(run) { SettledWritesEndWell(cfg, q, run, sh); }
    else { ResumedWritesStayBelow(cfg, q, run, sh.reported); }
    ResumerStaysOk(cfg, q, run);
  }

  lemma ResumerStaysOk(cfg: Config, q: Process, run: Run)
    requires !q.claimed && ResumerOk(cfg, q) && MayWrite(cfg, q, run)
    ensures ResumerOk(cfg, AfterWrite(q, run))
  {
  }

  lemma RowAfterResumer(cfg: Config, c: Corridor, sh: Shared, p: Process, q: Process, run: Run)
    requires Calm(cfg) && RowOk(c, sh) && ProcOk(cfg, c, sh, p) && p.claimed && Sole(cfg, sh, p)
    requires WinnerRow(cfg, c, sh, p) && Pair(cfg, c, sh, p, q) && ResumerWrite(cfg, c, sh, q, run)
    ensures var sh' := sh.(row := Some(PgMerge(sh.row.value, run)));
            RowOk(c, sh') && WinnerRow(cfg, c, sh', p)
  {
    Merges(sh.row.value, run);
    if Recorded(sh.row.value) { SettledRowsArePast(cfg, c, sh, p); }
  }

  lemma PairAfterResumer(cfg: Config, c: Corridor, sh: Shared, p: Process, q: Process, run: Run)
    requires Pair(cfg, c, sh, p, q) && ResumerWrite(cfg, c, sh, q, run)
    ensures Pair(cfg, c, sh, p, AfterWrite(q, run))
  {
  }

  // ----- One step ------------------------------------------------------------------------------------------

  /** Nothing the invariant relies on goes away. */
  ghost predicate Grows(sh: Shared, sh': Shared) {
    && sh.row.Some? && sh'.row.Some? && sh.row.value.version <= sh'.row.value.version
    && (sh.reported ==> sh'.reported) && (sh.confirmed ==> sh'.confirmed) && (sh.paid != [] ==> sh'.paid != [])
  }

  lemma OthersStayOk(cfg: Config, c: Corridor, sh: Shared, sh': Shared, p: Process)
    requires ProcOk(cfg, c, sh, p) && Grows(sh, sh')
    requires p.claimed ==> WinnerOk(cfg, sh', p)
    ensures ProcOk(cfg, c, sh', p)
  {
  }

  /** A live process went from `p` to `p'`. */
  ghost predicate Stepped(cfg: Config, c: Corridor, s: Many, s': Many, pid: nat, p: Process, p': Process) {
    && Alive(s, pid) && s.procs[pid].p == p && s'.procs == s.procs[pid := Live(p')]
    && p'.claimed == p.claimed && p'.c == p.c && Grows(s.sh, s'.sh) && RowOk(c, s'.sh) && ProcOk(cfg, c, s'.sh, p')
  }

  lemma WinnerStepped(cfg: Config, c: Corridor, s: Many, s': Many, pid: nat, p: Process, p': Process)
    requires Orderly(cfg, c, s) && OneClaim(s) && Stepped(cfg, c, s, s', pid, p, p') && p.claimed
    requires WinnerRow(cfg, c, s'.sh, p')
    requires Recorded(p.run) ==> Recorded(p'.run)
    requires OnTrack(p'.run.state) || Recorded(p'.run) ==>
               && (OnTrack(p.run.state) || Recorded(p.run))
               && Goal(p.run, c.settings.prefunded) <= Goal(p'.run, c.settings.prefunded)
    ensures Orderly(cfg, c, s')
  {
    assert Claimed(s, pid) && Claimed(s', pid);
    forall w | Claimed(s', w) ensures w == pid {
      assert Claimed(s, w);
    }
    forall q | Alive(s', q) && q != pid ensures ProcOk(cfg, c, s'.sh, s'.procs[q].p) && !Claimed(s', q) {
      assert Alive(s, q);
      OthersStayOk(cfg, c, s.sh, s'.sh, s.procs[q].p);
    }
    forall q | Alive(s', q) && !Claimed(s', q) ensures Pair(cfg, c, s'.sh, p', s'.procs[q].p) {
      assert Alive(s, q) && !Claimed(s, q);
      assert Pair(cfg, c, s.sh, p, s.procs[q].p);
    }
    assert Under(c, s.procs[pid]);
  }

  lemma ResumerStepped(cfg: Config, c: Corridor, s: Many, s': Many, pid: nat, p: Process, p': Process, w: nat)
    requires Orderly(cfg, c, s) && OneClaim(s) && Stepped(cfg, c, s, s', pid, p, p') && !p.claimed
    requires Claimed(s, w) && WinnerRow(cfg, c, s'.sh, s.procs[w].p) && Pair(cfg, c, s'.sh, s.procs[w].p, p')
    requires s'.sh.paid == s.sh.paid && s'.sh.inflight == s.sh.inflight
    ensures Orderly(cfg, c, s')
  {
    assert Claimed(s', w) && w != pid;
    forall v | Claimed(s', v) ensures v == w {
      assert Claimed(s, v);
    }
    forall q | Alive(s', q) && q != pid ensures ProcOk(cfg, c, s'.sh, s'.procs[q].p) {
      assert Alive(s, q);
      OthersStayOk(cfg, c, s.sh, s'.sh, s.procs[q].p);
    }
    forall q | Alive(s', q) && !Claimed(s', q) ensures Pair(cfg, c, s'.sh, s'.procs[w].p, s'.procs[q].p) {
      if q != pid {
        assert Alive(s, q) && !Claimed(s, q);
        assert Pair(cfg, c, s.sh, s.procs[w].p, s.procs[q].p);
      }
    }
    assert Under(c, s.procs[pid]);
  }

  lemma WriteStep(cfg: Config, c: Corridor, s: Many, t: Move)
    requires cfg.store == Postgres && Calm(cfg) && Orderly(cfg, c, s) && OnePayer(cfg, s)
    requires Moved(cfg, s, t).Some? && t.e.Write?
    ensures Orderly(cfg, c, Moved(cfg, s, t).value)
  {
    var w :| Claimed(s, w);
    assert Alive(s, t.pid) && Alive(s, w);
    if s.procs[t.pid].p.claimed { WinnerWriteStep(cfg, c, s, t); } else { ResumerWriteStep(cfg, c, s, t, w); }
  }

  lemma WinnerWriteStep(cfg: Config, c: Corridor, s: Many, t: Move)
    requires cfg.store == Postgres && Calm(cfg) && Orderly(cfg, c, s) && OnePayer(cfg, s)
    requires Moved(cfg, s, t).Some? && t.e.Write? && Claimed(s, t.pid) && Alive(s, t.pid)
    ensures Orderly(cfg, c, Moved(cfg, s, t).value)
  {
    var s', p, run := Moved(cfg, s, t).value, s.procs[t.pid].p, t.e.run;
    WinnerWriteFacts(cfg, c, s.sh, p, run);
    RowAfterWinner(cfg, c, s.sh, p, run);
    WrittenBy(cfg, c, s.sh, s'.sh, p, run);
    WinnerStepped(cfg, c, s, s', t.pid, p, AfterWrite(p, run));
  }

  lemma ResumerWriteStep(cfg: Config, c: Corridor, s: Many, t: Move, w: nat)
    requires cfg.store == Postgres && Calm(cfg) && Orderly(cfg, c, s) && OnePayer(cfg, s)
    requires Moved(cfg, s, t).Some? && t.e.Write? && !Claimed(s, t.pid) && Alive(s, t.pid)
    requires Claimed(s, w) && Alive(s, w)
    ensures Orderly(cfg, c, Moved(cfg, s, t).value)
  {
    var s', p, run := Moved(cfg, s, t).value, s.procs[t.pid].p, t.e.run;
    ResumerWriteFacts(cfg, c, s.sh, p, run);
    RowAfterResumer(cfg, c, s.sh, s.procs[w].p, p, run);
    PairAfterResumer(cfg, c, s.sh, s.procs[w].p, p, run);
    WrittenBy(cfg, c, s.sh, s'.sh, p, run);
    ResumerStepped(cfg, c, s, s', t.pid, p, AfterWrite(p, run), w);
  }

  lemma WrittenBy(cfg: Config, c: Corridor, sh: Shared, sh': Shared, p: Process, run: Run)
    requires RowOk(c, sh) && ProcOk(cfg, c, sh, p) && PlainWrite(p, run) && EndsWell(run, c.settings.rollback, sh)
    requires sh' == sh.(row := Some(PgMerge(sh.row.value, run)), retries := sh'.retries)
    requires if p.claimed then WinnerOk(cfg, sh, AfterWrite(p, run)) else ResumerOk(cfg, AfterWrite(p, run))
    ensures Grows(sh, sh') && ProcOk(cfg, c, sh', AfterWrite(p, run))
  {
    Merges(sh.row.value, run);
  }

  /** A step that writes no row and pays nothing. */
  lemma QuietStep(cfg: Config, c: Corridor, sh: Shared, p: Process, e: Event)
    requires Calm(cfg) && ProcOk(cfg, c, sh, p) && ProcessNext(cfg, p, e).Some? && SharedNext(cfg, sh, e).Some?
    requires !e.Write? && !e.Submit? && !e.Land? && !e.Boot? && !e.Read? && !e.Claim?
    ensures var p', sh' := ProcessNext(cfg, p, e).value, SharedNext(cfg, sh, e).value;
            && ProcOk(cfg, c, sh', p') && p'.run == p.run && p'.claimed == p.claimed && p'.c == p.c
            && p'.entered == p.entered
            && sh'.row == sh.row && sh'.paid == sh.paid && sh'.inflight == sh.inflight
            && (sh.reported ==> sh'.reported) && (sh.confirmed ==> sh'.confirmed)
            && (!p.claimed && p'.stage.Holding? ==> p.stage.Holding? || (cfg.canFind && sh.paid != []))
  {
    ProcessRests(cfg, p, e);
    SharedRests(cfg, sh, e);
  }

  lemma ProcessRests(cfg: Config, p: Process, e: Event)
    requires ProcessNext(cfg, p, e).Some? && !e.Write? && !e.Submit?
    ensures var p' := ProcessNext(cfg, p, e).value;
            && p'.run == p.run && p'.claimed == p.claimed && p'.c == p.c && p'.entered == p.entered
            && (p'.stage.Reported? ==> p.stage.Reported? || (e.WatchRefund? && e.full))
            && (p'.stage.Confirmed? ==> p.stage.Confirmed? || (e.Reconcile? && e.settled))
            && (p'.stage.Refused? ==> p.stage.Refused? || p.claimed)
            && (p'.stage.Clear? ==>
                  || p.stage.Clear?
                  || (cfg.canFind && OnTrack(p.run.state)
                      && (!p.claimed && p.run.state == Settling ==> p.entered == Settling)))
            && (p'.stage.Holding? ==> p.stage.Holding? || p.claimed || (cfg.canFind && e.Find? && e.found.Some?))
            && (p.run.state == Opened && p'.stage.Gated? ==> p.stage.Gated? || Drawn(p))
  {
  }

  lemma SharedRests(cfg: Config, sh: Shared, e: Event)
    requires SharedNext(cfg, sh, e).Some? && !e.Write? && !e.Submit? && !e.Land? && !e.Claim?
    ensures var sh' := SharedNext(cfg, sh, e).value;
            && sh'.row == sh.row && sh'.pinned == sh.pinned && sh'.paid == sh.paid && sh'.inflight == sh.inflight
            && sh'.reported == (sh.reported || (e.WatchRefund? && e.full))
            && sh'.confirmed == (sh.confirmed || (e.Reconcile? && e.settled))
            && (e.Find? && e.found.Some? ==> sh.paid != [])
  {
  }

  lemma OtherStep(cfg: Config, c: Corridor, s: Many, t: Move)
    requires Calm(cfg) && Orderly(cfg, c, s) && OnePayer(cfg, s) && Moved(cfg, s, t).Some?
    requires Alive(s, t.pid) && !t.e.Write? && !t.e.Submit? && !t.e.Land?
    ensures Orderly(cfg, c, Moved(cfg, s, t).value)
  {
    var s', p := Moved(cfg, s, t).value, s.procs[t.pid].p;
    var p' := ProcessNext(cfg, p, t.e).value;
    var w :| Claimed(s, w);
    assert Alive(s, w);
    QuietStep(cfg, c, s.sh, p, t.e);
    if p.claimed {
      assert Claimed(s, t.pid);
      WinnerStepped(cfg, c, s, s', t.pid, p, p');
    } else {
      assert !Claimed(s, t.pid);
      assert Pair(cfg, c, s.sh, s.procs[w].p, p);
      ResumerStepped(cfg, c, s, s', t.pid, p, p', w);
    }
  }

  /** Only the winner submits. */
  lemma ResumersDoNotSubmit(cfg: Config, p: Process, req: Request)
    requires ResumerOk(cfg, p) && !p.claimed
    ensures !MaySubmit(cfg, p, req)
  {
  }

  lemma SubmitKeepsOk(cfg: Config, c: Corridor, sh: Shared, p: Process, req: Request, fate: Fate)
    requires RowOk(c, sh) && ProcOk(cfg, c, sh, p) && p.claimed && WinnerRow(cfg, c, sh, p) && MaySubmit(cfg, p, req)
    ensures var sh', p' := AfterSubmit(sh, req, fate), p.(stage := StageAfterSubmit(req, fate));
            Grows(sh, sh') && RowOk(c, sh') && ProcOk(cfg, c, sh', p') && WinnerRow(cfg, c, sh', p')
  {
  }

  lemma PayStep(cfg: Config, c: Corridor, s: Many, t: Move)
    requires Orderly(cfg, c, s) && OneClaim(s) && Moved(cfg, s, t).Some? && t.e.Submit?
    ensures Orderly(cfg, c, Moved(cfg, s, t).value)
  {
    var p := s.procs[t.pid].p;
    assert Alive(s, t.pid);
    if !p.claimed { ResumersDoNotSubmit(cfg, p, t.e.req); }
    assert Claimed(s, t.pid);
    SubmitKeepsOk(cfg, c, s.sh, p, t.e.req, t.e.fate);
    WinnerStepped(cfg, c, s, Moved(cfg, s, t).value, t.pid, p, p.(stage := StageAfterSubmit(t.e.req, t.e.fate)));
  }

  lemma LandStepEnds(cfg: Config, c: Corridor, s: Many, t: Move)
    requires Orderly(cfg, c, s) && Moved(cfg, s, t).Some? && t.e.Land?
    ensures Orderly(cfg, c, Moved(cfg, s, t).value)
  {
    var s' := Moved(cfg, s, t).value;
    assert s'.procs == s.procs;
    if s.sh.row.Some? {
      var w :| Claimed(s, w);
      assert Claimed(s', w);
    }
    forall pid | Alive(s', pid) ensures ProcOk(cfg, c, s'.sh, s'.procs[pid].p) {
      assert Alive(s, pid);
      OthersStayOk(cfg, c, s.sh, s'.sh, s.procs[pid].p);
    }
    forall w | Claimed(s', w) ensures s'.sh.row.Some? && WinnerRow(cfg, c, s'.sh, s'.procs[w].p) {
      assert Claimed(s, w);
    }
    forall w, q | Claimed(s', w) && Alive(s', q) && !Claimed(s', q)
      ensures Pair(cfg, c, s'.sh, s'.procs[w].p, s'.procs[q].p)
    {
      assert Claimed(s, w) && Alive(s, q) && !Claimed(s, q);
    }
  }

  /** A process reads an unfinished row. */
  lemma ReaderIsOk(cfg: Config, c: Corridor, sh: Shared, p: Process, q: Process)
    requires cfg.store == Postgres && RowOk(c, sh) && WinnerRow(cfg, c, sh, p) && ProcOk(cfg, c, sh, p) && p.claimed
    requires q == Process(q.c, q.dry, false, q.run.state, q.run, 0, Idle, false, false)
    requires q.run == Load(cfg.store, sh.row.value) && HashOf(q.c) == HashOf(c) && q.c.settings == c.settings
    ensures ProcOk(cfg, c, sh, q) && Pair(cfg, c, sh, p, q)
  {
  }

  lemma ReadStep(cfg: Config, c: Corridor, s: Many, t: Move)
    requires cfg.store == Postgres && Orderly(cfg, c, s) && OneClaim(s) && Moved(cfg, s, t).Some? && t.e.Read?
    ensures Orderly(cfg, c, Moved(cfg, s, t).value)
  {
    var s' := Moved(cfg, s, t).value;
    assert Under(c, s.procs[t.pid]);
    if s'.procs[t.pid].Live? {
      var w :| Claimed(s, w);
      assert Alive(s, w);
      ReaderIsOk(cfg, c, s.sh, s.procs[w].p, s'.procs[t.pid].p);
    }
    Arrives(cfg, c, s, s', t.pid);
  }

  /** Someone who is no winner arrives. */
  lemma Arrives(cfg: Config, c: Corridor, s: Many, s': Many, pid: nat)
    requires Orderly(cfg, c, s) && OneClaim(s) && !Alive(s, pid) && pid in s'.procs
    requires s'.sh == s.sh && s'.procs == s.procs[pid := s'.procs[pid]] && Under(c, s'.procs[pid])
    requires s'.procs[pid].Live? ==>
               && !s'.procs[pid].p.claimed && ProcOk(cfg, c, s.sh, s'.procs[pid].p)
               && exists w :: Claimed(s, w) && Pair(cfg, c, s.sh, s.procs[w].p, s'.procs[pid].p)
    ensures Orderly(cfg, c, s')
  {
    if s.sh.row.Some? {
      var w :| Claimed(s, w);
      assert Claimed(s', w);
    }
    forall q | Alive(s', q) ensures ProcOk(cfg, c, s'.sh, s'.procs[q].p) {
      if q != pid { assert Alive(s, q); }
    }
    forall w | Claimed(s', w) ensures s'.sh.row.Some? && WinnerRow(cfg, c, s'.sh, s'.procs[w].p) {
      assert Claimed(s, w);
    }
    forall w, q | Claimed(s', w) && Alive(s', q) && !Claimed(s', q)
      ensures Pair(cfg, c, s'.sh, s'.procs[w].p, s'.procs[q].p)
    {
      assert Claimed(s, w);
      if q != pid { assert Alive(s, q) && !Claimed(s, q); }
    }
  }

  lemma ClaimStepEnds(cfg: Config, c: Corridor, s: Many, t: Move)
    requires Orderly(cfg, c, s) && BeforeTheClaim(s) && OneClaim(s) && Moved(cfg, s, t).Some? && t.e.Claim?
    ensures Orderly(cfg, c, Moved(cfg, s, t).value)
  {
    var s' := Moved(cfg, s, t).value;
    assert Under(c, s.procs[t.pid]);
    if t.e.won {
      assert Claimed(s', t.pid);
      assert forall q | q in s.procs :: !s.procs[q].Live?;
      assert forall q | Alive(s', q) :: q == t.pid;
      assert forall w | Claimed(s', w) :: Alive(s', w);
    } else {
      Arrives(cfg, c, s, s', t.pid);
    }
  }

  lemma BootStep(cfg: Config, c: Corridor, s: Many, t: Move)
    requires Parsed(cfg.schema, c) && Orderly(cfg, c, s) && OneClaim(s) && Moved(cfg, s, t).Some? && t.e.Boot?
    requires HashOf(t.e.c) == HashOf(c)
    ensures Orderly(cfg, c, Moved(cfg, s, t).value)
  {
    SameHashSameSettings(cfg.schema, t.e.c, c);
    Arrives(cfg, c, s, Moved(cfg, s, t).value, t.pid);
  }

  lemma OrderlyStep(cfg: Config, c: Corridor, s: Many, t: Move)
    requires cfg.store == Postgres && Calm(cfg) && Parsed(cfg.schema, c) && Orderly(cfg, c, s) && OnePayer(cfg, s)
    requires Moved(cfg, s, t).Some? && (t.e.Boot? ==> HashOf(t.e.c) == HashOf(c))
    ensures Orderly(cfg, c, Moved(cfg, s, t).value)
  {
    if t.e.Boot? { BootStep(cfg, c, s, t); }
    else if t.e.Land? { LandStepEnds(cfg, c, s, t); }
    else if t.e.Read? { ReadStep(cfg, c, s, t); }
    else if t.e.Claim? { ClaimStepEnds(cfg, c, s, t); }
    else if t.e.Write? { WriteStep(cfg, c, s, t); }
    else if t.e.Submit? { PayStep(cfg, c, s, t); }
    else { OtherStep(cfg, c, s, t); }
  }

  lemma {:induction false} OrderlyHolds(cfg: Config, c: Corridor, run: seq<Move>)
    requires cfg.store == Postgres && Calm(cfg) && Parsed(cfg.schema, c)
    requires Reaches(cfg, run).Some? && OneManifest(run, HashOf(c))
    ensures Orderly(cfg, c, Reaches(cfg, run).value)
  {
    if run != [] {
      var n := |run| - 1;
      OrderlyHolds(cfg, c, run[..n]);
      OnePayerHolds(cfg, run[..n]);
      OrderlyStep(cfg, c, Reaches(cfg, run[..n]).value, run[n]);
    }
  }

  // ----- In memory -------------------------------------------------------------------------------------------

  /** The in-memory row is always what some process wrote, and each process ends its run well. */
  ghost predicate MemoryOrderly(c: Corridor, s: Many) {
    && (forall pid | pid in s.procs :: Under(c, s.procs[pid]))
    && (s.sh.row.Some? ==> RowOk(c, s.sh))
    && (forall pid | Alive(s, pid) :: MemoryOk(c, s.sh, s.procs[pid].p))
  }

  ghost predicate MemoryOk(c: Corridor, sh: Shared, p: Process) {
    && p.run.manifestHash == Some(HashOf(c)) && Tidy(p.run) && HeardOf(sh, p.stage)
    && EndsWell(p.run, c.settings.rollback, sh)
  }

  lemma MemoryWrites(cfg: Config, c: Corridor, sh: Shared, p: Process, run: Run)
    requires cfg.store == InMemory && MemoryOk(c, sh, p) && Under(c, Live(p)) && MayWrite(cfg, p, run)
    ensures var sh' := SharedNext(cfg, sh, Write(run)).value;
            RowOk(c, sh') && MemoryOk(c, sh', AfterWrite(p, run))
  {
    MemoryWriteFacts(cfg, c, sh, p, run);
  }

  lemma MemoryWriteFacts(cfg: Config, c: Corridor, sh: Shared, p: Process, run: Run)
    requires MemoryOk(c, sh, p) && Under(c, Live(p)) && MayWrite(cfg, p, run)
    ensures run.manifestHash == Some(HashOf(c)) && Tidy(run) && EndsWell(run, c.settings.rollback, sh)
    ensures HeardOf(sh, AfterWrite(p, run).stage)
  {
    WritesArePlain(cfg, p, run);
    if Recorded(run) { SettledWritesEndWell(cfg, p, run, sh); }
  }

  lemma MemoryStep(cfg: Config, c: Corridor, s: Many, t: Move)
    requires cfg.store == InMemory && Parsed(cfg.schema, c) && MemoryOrderly(c, s)
    requires Moved(cfg, s, t).Some? && (t.e.Boot? ==> HashOf(t.e.c) == HashOf(c))
    ensures MemoryOrderly(c, Moved(cfg, s, t).value)
  {
    var s' := Moved(cfg, s, t).value;
    if t.e.Boot? {
      SameHashSameSettings(cfg.schema, t.e.c, c);
    } else {
      assert Under(c, s.procs[t.pid]);
      MemoryMover(cfg, c, s.sh, s.procs[t.pid], t.e);
    }
    forall pid | Alive(s', pid) && pid != t.pid ensures MemoryOk(c, s'.sh, s'.procs[pid].p) {
      assert Alive(s, pid);
      MemoryOthers(cfg, c, s.sh, s.procs[pid].p, t.e);
    }
  }

  lemma MemoryOthers(cfg: Config, c: Corridor, sh: Shared, p: Process, e: Event)
    requires MemoryOk(c, sh, p) && SharedNext(cfg, sh, e).Some?
    ensures MemoryOk(c, SharedNext(cfg, sh, e).value, p)
  {
  }

  lemma MemoryMover(cfg: Config, c: Corridor, sh: Shared, lo: Local, e: Event)
    requires cfg.store == InMemory && Under(c, lo) && (lo.Live? ==> MemoryOk(c, sh, lo.p)) && !e.Boot?
    requires sh.row.Some? ==> RowOk(c, sh)
    requires LocalNext(cfg, lo, e).Some? && SharedNext(cfg, sh, e).Some?
    ensures var lo', sh' := LocalNext(cfg, lo, e).value, SharedNext(cfg, sh, e).value;
            Under(c, lo') && (sh'.row.Some? ==> RowOk(c, sh')) && (lo'.Live? ==> MemoryOk(c, sh', lo'.p))
  {
    Safety.KeepsItsCorridor(cfg, lo, e);
    if e.Write? {
      MemoryWrites(cfg, c, sh, lo.p, e.run);
    } else if e.Claim? || e.Read? {
      MemoryArrivals(cfg, c, sh, lo, e);
    } else if e.Submit? {
      MemorySubmits(cfg, c, sh, lo.p, e.req, e.fate);
    } else if !e.Land? {
      ProcessRests(cfg, lo.p, e);
      SharedRests(cfg, sh, e);
    }
  }

  lemma MemorySubmits(cfg: Config, c: Corridor, sh: Shared, p: Process, req: Request, fate: Fate)
    requires MemoryOk(c, sh, p) && (sh.row.Some? ==> RowOk(c, sh))
    ensures var sh' := AfterSubmit(sh, req, fate);
            (sh'.row.Some? ==> RowOk(c, sh')) && MemoryOk(c, sh', p.(stage := StageAfterSubmit(req, fate)))
  {
  }

  lemma MemoryArrivals(cfg: Config, c: Corridor, sh: Shared, lo: Local, e: Event)
    requires cfg.store == InMemory && Under(c, lo) && (sh.row.Some? ==> RowOk(c, sh))
    requires LocalNext(cfg, lo, e).Some? && SharedNext(cfg, sh, e).Some? && (e.Claim? || e.Read?)
    ensures var lo', sh' := LocalNext(cfg, lo, e).value, SharedNext(cfg, sh, e).value;
            (sh'.row.Some? ==> RowOk(c, sh')) && (lo'.Live? ==> MemoryOk(c, sh', lo'.p))
  {
  }

  lemma {:induction false} MemoryOrderlyHolds(cfg: Config, c: Corridor, run: seq<Move>)
    requires cfg.store == InMemory && Parsed(cfg.schema, c)
    requires Reaches(cfg, run).Some? && OneManifest(run, HashOf(c))
    ensures MemoryOrderly(c, Reaches(cfg, run).value)
  {
    if run != [] {
      var n := |run| - 1;
      MemoryOrderlyHolds(cfg, c, run[..n]);
      MemoryStep(cfg, c, Reaches(cfg, run[..n]).value, run[n]);
    }
  }

  // ----- Settled rows end well -------------------------------------------------------------------------------

  /** Whatever runs at the same time under one manifest: a row that says what was settled fails only
      under `manual`, completes only on the anchor's word, and is refunded only with a refund id or
      the anchor's report. In SQL this needs a submitter that cannot look, or a gate and reported
      failures that are the truth; in memory the row is always some process's own. */
  lemma ConcurrentSettledRunsEndWell(cfg: Config, c: Corridor, run: seq<Move>)
    requires Parsed(cfg.schema, c) && Reaches(cfg, run).Some? && OneManifest(run, HashOf(c))
    requires cfg.store == InMemory || Calm(cfg)
    ensures var sh := Reaches(cfg, run).value.sh;
            sh.row.Some? && HasSettlementRef(sh.row.value) ==>
              && (sh.row.value.state == Failed ==> c.settings.rollback == Manual)
              && (sh.row.value.state == Completed ==> sh.confirmed)
              && (sh.row.value.state == Refunded ==> sh.row.value.refundId.Some? || sh.reported)
  {
    if cfg.store == InMemory { MemoryOrderlyHolds(cfg, c, run); } else { OrderlyHolds(cfg, c, run); }
  }

  // ----- Where landed money is always recorded -----------------------------------------------------------

  /** No process but the winner touches a run on its way to settlement: others cannot look, and there
      is no deposit they could take up, or only one they fail at. */
  predicate Secluded(cfg: Config, s: Settings) {
    && cfg.store == Postgres && !cfg.canFind && Truthful(cfg)
    && (s.prefunded || (cfg.gate && s.rollback == Manual))
  }

  /** Only corridors that draw a deposit pass through its states. */
  predicate NoDeposit(s: Settings, run: Run) {
    s.prefunded ==> run.state !in {Funding, Funded}
  }

  predicate Untouched(run: Run) {
    OnTrack(run.state) || run.state == Failed
  }

  /** The winner and the row. */
  ghost predicate Ahead(c: Corridor, sh: Shared, p: Process)
    requires sh.row.Some?
  {
    var row, goal := sh.row.value, Goal(p.run, c.settings.prefunded);
    && (OnTrack(p.run.state) && !Recorded(p.run) ==>
          && (row.version <= p.run.version || row.version + 3 <= goal)
          && Untouched(row)
          && (p.run.state in {Retrying, Verifying, Settling} ==>
                row.version == p.run.version && row.state == p.run.state))
    && (Recorded(p.run) ==> Recorded(row))
  }

  /** The winner and a process that resumed the key. */
  ghost predicate Behind(p: Process, q: Process) {
    OnTrack(p.run.state) && !Recorded(p.run) && !Recorded(q.run) ==> Untouched(q.run)
  }

  ghost predicate AllBehind(cfg: Config, c: Corridor, s: Many) {
    && (s.sh.row.Some? ==> NoDeposit(c.settings, s.sh.row.value))
    && (forall pid | Alive(s, pid) :: NoDeposit(c.settings, s.procs[pid].p.run))
    && (forall w | Claimed(s, w) :: s.sh.row.Some? && Ahead(c, s.sh, s.procs[w].p))
    && (forall w, q | Claimed(s, w) && Alive(s, q) && !Claimed(s, q) :: Behind(s.procs[w].p, s.procs[q].p))
  }

  /** What a process that cannot look does to a run without a settlement. */
  lemma SecludedWrites(cfg: Config, c: Corridor, p: Process, run: Run)
    requires Secluded(cfg, c.settings) && p.c.settings == c.settings && MayWrite(cfg, p, run)
    requires NoDeposit(c.settings, p.run)
    ensures NoDeposit(c.settings, run)
    ensures !p.claimed && ResumerOk(cfg, p) && !Stranger(p) && Tidy(p.run) && !Recorded(p.run) && Untouched(p.run) ==>
              && !Recorded(run) && Untouched(run) && OnTrack(p.run.state)
              && run.version + 3 <= Goal(p.run, c.settings.prefunded)
  {
  }

  lemma AheadAfterWinner(cfg: Config, c: Corridor, sh: Shared, p: Process, run: Run)
    requires RowOk(c, sh) && ProcOk(cfg, c, sh, p) && p.claimed && Ahead(c, sh, p)
    requires WinnerWrite(cfg, c, sh, p, run) && NoDeposit(c.settings, run) && NoDeposit(c.settings, sh.row.value)
    ensures var sh' := sh.(row := Some(PgMerge(sh.row.value, run)));
            Ahead(c, sh', AfterWrite(p, run)) && NoDeposit(c.settings, sh'.row.value)
  {
    Merges(sh.row.value, run);
  }

  lemma AheadAfterResumer(cfg: Config, c: Corridor, sh: Shared, p: Process, q: Process, run: Run)
    requires Secluded(cfg, c.settings) && RowOk(c, sh) && ProcOk(cfg, c, sh, p) && p.claimed && Ahead(c, sh, p)
    requires ProcOk(cfg, c, sh, q) && !q.claimed && Pair(cfg, c, sh, p, q) && Behind(p, q) && MayWrite(cfg, q, run)
    requires NoDeposit(c.settings, q.run) && NoDeposit(c.settings, sh.row.value)
    ensures var sh' := sh.(row := Some(PgMerge(sh.row.value, run)));
            && Ahead(c, sh', p) && Behind(p, AfterWrite(q, run))
            && NoDeposit(c.settings, sh'.row.value) && NoDeposit(c.settings, run)
  {
    WritesArePlain(cfg, q, run);
    Merges(sh.row.value, run);
    SecludedWrites(cfg, c, q, run);
  }

  lemma BehindWriteStep(cfg: Config, c: Corridor, s: Many, t: Move)
    requires Secluded(cfg, c.settings) && Orderly(cfg, c, s) && OnePayer(cfg, s) && AllBehind(cfg, c, s)
    requires Moved(cfg, s, t).Some? && t.e.Write?
    ensures AllBehind(cfg, c, Moved(cfg, s, t).value)
  {
    var w :| Claimed(s, w);
    assert Alive(s, t.pid) && Alive(s, w);
    WriterBehind(cfg, c, s, t, w);
    WrittenBehind(cfg, c, s, Moved(cfg, s, t).value, t.pid, w);
  }

  /** What the write does to the row, the winner and the writer. */
  lemma WriterBehind(cfg: Config, c: Corridor, s: Many, t: Move, w: nat)
    requires Secluded(cfg, c.settings) && Orderly(cfg, c, s) && OnePayer(cfg, s) && AllBehind(cfg, c, s)
    requires Moved(cfg, s, t).Some? && t.e.Write? && Claimed(s, w) && Alive(s, w) && Alive(s, t.pid)
    ensures var s' := Moved(cfg, s, t).value;
            && Wrote(s, s', t.pid) && Alive(s', w) && s'.sh.row.Some? && NoDeposit(c.settings, s'.sh.row.value)
            && Ahead(c, s'.sh, s'.procs[w].p) && NoDeposit(c.settings, s'.procs[t.pid].p.run)
            && (t.pid != w ==> Behind(s'.procs[w].p, s'.procs[t.pid].p))
            && (OnTrack(s'.procs[w].p.run.state) && !Recorded(s'.procs[w].p.run) ==>
                  OnTrack(s.procs[w].p.run.state) && !Recorded(s.procs[w].p.run))
  {
    var p, run := s.procs[t.pid].p, t.e.run;
    SecludedWrites(cfg, c, p, run);
    if p.claimed {
      assert Claimed(s, t.pid);
      WinnerWriteFacts(cfg, c, s.sh, p, run);
      AheadAfterWinner(cfg, c, s.sh, p, run);
    } else {
      assert !Claimed(s, t.pid);
      AheadAfterResumer(cfg, c, s.sh, s.procs[w].p, p, run);
    }
  }

  ghost predicate Wrote(s: Many, s': Many, pid: nat) {
    && Alive(s, pid) && Alive(s', pid) && s'.procs == s.procs[pid := s'.procs[pid]]
    && s'.procs[pid].p.claimed == s.procs[pid].p.claimed
  }

  lemma WrittenBehind(cfg: Config, c: Corridor, s: Many, s': Many, pid: nat, w: nat)
    requires OneClaim(s) && AllBehind(cfg, c, s) && Wrote(s, s', pid) && Claimed(s, w) && Alive(s', w)
    requires s'.sh.row.Some? && NoDeposit(c.settings, s'.sh.row.value) && Ahead(c, s'.sh, s'.procs[w].p)
    requires NoDeposit(c.settings, s'.procs[pid].p.run)
    requires pid != w ==> Behind(s'.procs[w].p, s'.procs[pid].p)
    requires OnTrack(s'.procs[w].p.run.state) && !Recorded(s'.procs[w].p.run) ==>
               OnTrack(s.procs[w].p.run.state) && !Recorded(s.procs[w].p.run)
    ensures AllBehind(cfg, c, s')
  {
    forall v | Claimed(s', v) ensures v == w { assert Claimed(s, v); }
    forall q | Alive(s', q) ensures NoDeposit(c.settings, s'.procs[q].p.run) { assert Alive(s, q); }
    forall q | Alive(s', q) && !Claimed(s', q) ensures Behind(s'.procs[w].p, s'.procs[q].p) {
      assert Alive(s, q) && !Claimed(s, q);
      assert Behind(s.procs[w].p, s.procs[q].p);
    }
  }

  /** Process `pid` moved without a write: everyone has the run it had, or has just read the row. */
  ghost predicate NoWrite(s: Many, s': Many, pid: nat) {
    && pid in s'.procs && s'.procs == s.procs[pid := s'.procs[pid]] && s'.sh.row == s.sh.row
    && (Alive(s', pid) ==>
          || (Alive(s, pid) && s'.procs[pid].p.run == s.procs[pid].p.run
              && s'.procs[pid].p.claimed == s.procs[pid].p.claimed)
          || (!Alive(s, pid) && !s'.procs[pid].p.claimed && s.sh.row.Some?
              && s'.procs[pid].p.run == ToRun(s.sh.row.value)))
  }

  lemma WinnersStay(s: Many, s': Many, pid: nat, w: nat)
    requires NoWrite(s, s', pid) && Claimed(s', w)
    ensures Claimed(s, w) && s'.procs[w].p.run == s.procs[w].p.run
  {
    assert Alive(s', w);
  }

  /** A process that did not win is as it was, or has just read the row. */
  lemma OthersStay(s: Many, s': Many, pid: nat, q: nat)
    requires NoWrite(s, s', pid) && Alive(s', q)
    ensures || (Alive(s, q) && s'.procs[q].p.run == s.procs[q].p.run && (Claimed(s, q) <==> Claimed(s', q)))
            || (s.sh.row.Some? && s'.procs[q].p.run == ToRun(s.sh.row.value))
  {
  }

  lemma BehindStays(cfg: Config, c: Corridor, s: Many, s': Many, pid: nat)
    requires (s.sh.row.Some? ==> RowOk(c, s.sh)) && AllBehind(cfg, c, s) && NoWrite(s, s', pid)
    ensures AllBehind(cfg, c, s')
  {
    forall q | Alive(s', q) ensures NoDeposit(c.settings, s'.procs[q].p.run) {
      OthersStay(s, s', pid, q);
    }
    forall w | Claimed(s', w) ensures s'.sh.row.Some? && Ahead(c, s'.sh, s'.procs[w].p) {
      WinnersStay(s, s', pid, w);
    }
    forall w, q | Claimed(s', w) && Alive(s', q) && !Claimed(s', q)
      ensures Behind(s'.procs[w].p, s'.procs[q].p)
    {
      WinnersStay(s, s', pid, w);
      OthersStay(s, s', pid, q);
      StillBehind(c, s, s', w, q);
    }
  }

  lemma StillBehind(c: Corridor, s: Many, s': Many, w: nat, q: nat)
    requires Claimed(s, w) && Claimed(s', w) && Alive(s', q) && !Claimed(s', q)
    requires s'.procs[w].p.run == s.procs[w].p.run && s.sh.row.Some? && Ahead(c, s.sh, s.procs[w].p)
    requires || (Alive(s, q) && s'.procs[q].p.run == s.procs[q].p.run && !Claimed(s, q)
                 && Behind(s.procs[w].p, s.procs[q].p))
             || s'.procs[q].p.run == ToRun(s.sh.row.value)
    ensures Behind(s'.procs[w].p, s'.procs[q].p)
  {
  }

  lemma AllBehindStep(cfg: Config, c: Corridor, s: Many, t: Move)
    requires Secluded(cfg, c.settings) && Orderly(cfg, c, s) && OnePayer(cfg, s) && AllBehind(cfg, c, s)
    requires Moved(cfg, s, t).Some?
    requires var s' := Moved(cfg, s, t).value; Orderly(cfg, c, s') && OneClaim(s')
    ensures AllBehind(cfg, c, Moved(cfg, s, t).value)
  {
    var s' := Moved(cfg, s, t).value;
    if t.e.Write? {
      BehindWriteStep(cfg, c, s, t);
    } else if t.e.Claim? && t.e.won {
      assert forall q | q in s.procs :: !s.procs[q].Live?;
      assert forall q | Alive(s', q) :: q == t.pid;
      assert forall w | Claimed(s', w) :: Alive(s', w);
    } else {
      BehindMover(cfg, s.sh, if t.pid in s.procs then s.procs[t.pid] else Off, t.e);
      BehindStays(cfg, c, s, s', t.pid);
    }
  }

  lemma BehindMover(cfg: Config, sh: Shared, lo: Local, e: Event)
    requires cfg.store == Postgres && LocalNext(cfg, lo, e).Some? && SharedNext(cfg, sh, e).Some?
    requires !e.Write? && !(e.Claim? && e.won)
    ensures var lo', sh' := LocalNext(cfg, lo, e).value, SharedNext(cfg, sh, e).value;
            && sh'.row == sh.row
            && (lo'.Live? ==>
                  || (lo.Live? && lo'.p.run == lo.p.run && lo'.p.claimed == lo.p.claimed)
                  || (!lo.Live? && !lo'.p.claimed && sh.row.Some? && lo'.p.run == ToRun(sh.row.value)))
  {
    if lo.Live? && !e.Boot? && !e.Land? { RunRests(cfg, lo.p, e); }
  }

  lemma RunRests(cfg: Config, p: Process, e: Event)
    requires ProcessNext(cfg, p, e).Some? && !e.Write?
    ensures var p' := ProcessNext(cfg, p, e).value; p'.run == p.run && p'.claimed == p.claimed
  {
  }

  lemma {:induction false} AllBehindHolds(cfg: Config, c: Corridor, run: seq<Move>)
    requires Secluded(cfg, c.settings) && Parsed(cfg.schema, c)
    requires Reaches(cfg, run).Some? && OneManifest(run, HashOf(c))
    ensures AllBehind(cfg, c, Reaches(cfg, run).value)
  {
    if run != [] {
      var n := |run| - 1;
      AllBehindHolds(cfg, c, run[..n]);
      OrderlyHolds(cfg, c, run[..n]);
      OnePayerHolds(cfg, run[..n]);
      OrderlyHolds(cfg, c, run);
      OnePayerHolds(cfg, run);
      AllBehindStep(cfg, c, Reaches(cfg, run[..n]).value, run[n]);
    }
  }

  /** ... there, whatever runs at the same time under one manifest, no finished row leaves out a
      payment that has landed. */
  lemma LandedMoneyIsRecorded(cfg: Config, c: Corridor, run: seq<Move>)
    requires Secluded(cfg, c.settings) && Parsed(cfg.schema, c)
    requires Reaches(cfg, run).Some? && OneManifest(run, HashOf(c))
    ensures var sh := Reaches(cfg, run).value.sh;
            sh.row.Some? && sh.paid != [] && IsTerminal(sh.row.value.state) ==> HasSettlementRef(sh.row.value)
  {
    var s := Reaches(cfg, run).value;
    AllBehindHolds(cfg, c, run);
    OrderlyHolds(cfg, c, run);
    OnePayerHolds(cfg, run);
    if s.sh.row.Some? && s.sh.paid != [] {
      var w :| Claimed(s, w);
      assert Alive(s, w);
      if !Recorded(s.procs[w].p.run) { ThePayerKnows(cfg, s.sh, s.procs[w].p); }
    }
  }
}
