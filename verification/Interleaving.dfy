/**
 * Any number of processes on one key at the same time: every interleaving of their events, each
 * process stopping wherever it likes. Only the row and the chain are shared.
 */
module Interleaving {
  import opened Prelude
  import opened States
  import opened Runs
  import opened Stores
  import opened Protocol
  import opened OneWorker
  import W = Witnesses
  import Canonical
  import Safety

  datatype Move = By(pid: nat, e: Event)

  /** The processes that ever started; one that crashed is one that takes no further step. */
  datatype Many = Many(sh: Shared, procs: map<nat, Local>)

  const QUIET := Many(NOTHING, map[])

  /** A process starts once, and then goes on from where it is. */
  ghost function Moved(cfg: Config, s: Many, t: Move): Option<Many> {
    if t.e.Boot? == (t.pid in s.procs) then None
    else
      var lo := LocalNext(cfg, if t.pid in s.procs then s.procs[t.pid] else Off, t.e);
      var sh := SharedNext(cfg, s.sh, t.e);
      if lo.Some? && sh.Some? then Some(Many(sh.value, s.procs[t.pid := lo.value])) else None
  }

  ghost function Reaches(cfg: Config, run: seq<Move>): Option<Many> {
    if run == [] then Some(QUIET)
    else
      var n := |run| - 1;
      var before := Reaches(cfg, run[..n]);
      if before.Some? then Moved(cfg, before.value, run[n]) else None
  }

  lemma OneMoreStep(cfg: Config, run: seq<Move>, t: Move)
    requires Reaches(cfg, run).Some?
    ensures Reaches(cfg, run + [t]) == Moved(cfg, Reaches(cfg, run).value, t)
  {
    assert (run + [t])[..|run|] == run;
  }

  predicate Claimed(s: Many, pid: nat) {
    pid in s.procs && s.procs[pid].Live? && s.procs[pid].p.claimed
  }

  // ----- One payer ---------------------------------------------------------------------------------

  /** No process that resumed the key can pay: there is a gate it cannot ask again, or it cannot
      look first. */
  predicate OnlyWinnersMayPay(cfg: Config) {
    cfg.gate || !cfg.canFind
  }

  /** What the winner of the claim knows about the money, which only it can move. */
  ghost predicate Sole(cfg: Config, sh: Shared, p: Process) {
    && (Unopened(p.run.state) ==> sh.submits == 0)
    && (forall i | 0 <= i < |sh.paid| :: sh.paid[i].req == RequestOf(p.run, p.c.settings))
    && (forall i | 0 <= i < |sh.inflight| :: sh.inflight[i] == RequestOf(p.run, p.c.settings))
    && (MayYetSettle(p.run.state) ==> sh.accepted == 0)
    && (p.run.state == Settling && p.stage != Lost && !p.stage.Holding? ==> sh.accepted == 0)
    && (!cfg.lateRetries ==> NothingLate(sh, p))
    && (Truthful(cfg) && (MayYetSettle(p.run.state) || Unanswered(p)) ==> sh.paid == [] && sh.inflight == [])
  }

  predicate Unanswered(p: Process) {
    p.run.state == Settling && p.stage != Lost && !p.stage.Holding?
  }

  /** What it knows where no retryable failure lands late. */
  ghost predicate NothingLate(sh: Shared, p: Process) {
    && (MayYetSettle(p.run.state) ==> sh.inflight == [])
    && (p.stage.Clear? ==> sh.paid == [] && sh.inflight == [])
    && (p.run.state == Settling && p.stage !in {Lost, Refused(false)} ==> sh.inflight == [])
  }

  /** ... and how often it tried. */
  ghost predicate Tried(sh: Shared, p: Process) {
    && sh.pinned == Some(p.c) && sh.submits <= p.attempt + 1 && p.attempt <= p.c.settings.maxRetries
    && (MayYetSettle(p.run.state) || p.stage == Armed || p.stage.Clear? ==> sh.submits <= p.attempt)
  }

  /** Who holds the evidence that nothing was found can look. */
  ghost predicate LookersCanLook(cfg: Config, s: Many) {
    forall pid | pid in s.procs && s.procs[pid].Live? :: s.procs[pid].p.stage.Clear? ==> cfg.canFind
  }

  ghost predicate OnePayer(cfg: Config, s: Many) {
    && BeforeTheClaim(s) && OneClaim(s) && LookersCanLook(cfg, s)
    && (forall pid :: Claimed(s, pid) ==> Sole(cfg, s.sh, s.procs[pid].p) && Tried(s.sh, s.procs[pid].p))
    && SpentOnce(cfg, s.sh)
  }

  /** The books of one payer. */
  ghost predicate SpentOnce(cfg: Config, sh: Shared) {
    && sh.accepted <= 1 && |sh.paid| + |sh.inflight| <= sh.submits
    && (CanTell(cfg) ==> |sh.paid| + |sh.inflight| <= 1)
    && (if sh.pinned.Some? then sh.submits <= sh.pinned.value.settings.maxRetries + 1 else sh.submits == 0)
  }

  lemma {:induction false} OnePayerHolds(cfg: Config, run: seq<Move>)
    requires OnlyWinnersMayPay(cfg) && Reaches(cfg, run).Some?
    ensures OnePayer(cfg, Reaches(cfg, run).value)
  {
    if run != [] {
      var n := |run| - 1;
      OnePayerHolds(cfg, run[..n]);
      OnePayerStep(cfg, Reaches(cfg, run[..n]).value, run[n]);
    }
  }

  lemma OnePayerStep(cfg: Config, s: Many, t: Move)
    requires OnlyWinnersMayPay(cfg) && OnePayer(cfg, s) && Moved(cfg, s, t).Some?
    ensures OnePayer(cfg, Moved(cfg, s, t).value)
  {
    var s' := Moved(cfg, s, t).value;
    BeforeTheClaimStep(cfg, s, t);
    OneClaimStep(cfg, s, t);
    LookersStep(cfg, s, t);
    if t.e.Submit? {
      SubmitStep(cfg, s, t);
    } else if t.e.Land? {
      LandStep(cfg, s, t);
    } else {
      MoneyRests(cfg, s.sh, t.e);
      forall pid | Claimed(s', pid) ensures Sole(cfg, s'.sh, s'.procs[pid].p) && Tried(s'.sh, s'.procs[pid].p) {
        if pid == t.pid {
          SoleStep(cfg, s, t);
        } else {
          StillTheWinner(cfg, s, t, pid);
        }
      }
    }
  }

  /** Another process's step does not touch what the winner knows. */
  lemma StillTheWinner(cfg: Config, s: Many, t: Move, pid: nat)
    requires OnePayer(cfg, s) && Moved(cfg, s, t).Some? && pid != t.pid && !t.e.Submit? && !t.e.Land?
    requires Claimed(Moved(cfg, s, t).value, pid)
    ensures var s' := Moved(cfg, s, t).value;
            Sole(cfg, s'.sh, s'.procs[pid].p) && Tried(s'.sh, s'.procs[pid].p)
  {
    MoneyRests(cfg, s.sh, t.e);
    assert Claimed(s, pid);
  }

  lemma LookersStep(cfg: Config, s: Many, t: Move)
    requires LookersCanLook(cfg, s) && Moved(cfg, s, t).Some?
    ensures LookersCanLook(cfg, Moved(cfg, s, t).value)
  {
    ClearByLooking(cfg, if t.pid in s.procs then s.procs[t.pid] else Off, t.e);
  }

  lemma ClearByLooking(cfg: Config, lo: Local, e: Event)
    requires LocalNext(cfg, lo, e).Some?
    ensures var lo' := LocalNext(cfg, lo, e).value;
            lo'.Live? && lo'.p.stage.Clear? ==> cfg.canFind || (lo.Live? && lo.p.stage.Clear?)
  {
    if lo.Live? && !e.Boot? && !e.Land? && ProcessNext(cfg, lo.p, e).Some? && !e.Write? {
      ProcessClearByLooking(cfg, lo.p, e);
    }
  }

  lemma ProcessClearByLooking(cfg: Config, p: Process, e: Event)
    requires ProcessNext(cfg, p, e).Some? && !e.Write?
    ensures ProcessNext(cfg, p, e).value.stage.Clear? ==> cfg.canFind || p.stage.Clear?
  {
  }

  /** A process is the winner of the claim from the event that says so. */
  lemma WinnersClaimed(cfg: Config, lo: Local, e: Event)
    requires LocalNext(cfg, lo, e).Some?
    ensures var lo' := LocalNext(cfg, lo, e).value;
            && (lo'.Live? && lo'.p.claimed ==> (lo.Live? && lo.p.claimed) || (e.Claim? && e.won))
            && (lo'.Live? ==> lo.Live? || e.Read? || (e.Claim? && e.won))
  {
    if lo.Live? && !e.Boot? && !e.Land? && !e.Write? && ProcessNext(cfg, lo.p, e).Some? {
      OthersKeepTheClaim(cfg, lo.p, e);
    }
  }

  lemma OthersKeepTheClaim(cfg: Config, p: Process, e: Event)
    requires ProcessNext(cfg, p, e).Some?
    ensures ProcessNext(cfg, p, e).value.claimed == p.claimed
  {
  }

  /** No row, no money, no work in progress. */
  ghost predicate BeforeTheClaim(s: Many) {
    s.sh.row.None? ==> s.sh == NOTHING && forall pid | pid in s.procs :: !s.procs[pid].Live?
  }

  ghost predicate OneClaim(s: Many) {
    forall a, b :: Claimed(s, a) && Claimed(s, b) ==> a == b
  }

  lemma BeforeTheClaimStep(cfg: Config, s: Many, t: Move)
    requires BeforeTheClaim(s) && Moved(cfg, s, t).Some?
    ensures BeforeTheClaim(Moved(cfg, s, t).value)
  {
    var s' := Moved(cfg, s, t).value;
    var lo := if t.pid in s.procs then s.procs[t.pid] else Off;
    WinnersClaimed(cfg, lo, t.e);
    if s'.sh.row.None? {
      RowsAppear(cfg, s.sh, t.e);
      NothingHappensFirst(cfg, lo, t.e);
    }
  }

  lemma RowsAppear(cfg: Config, sh: Shared, e: Event)
    requires SharedNext(cfg, sh, e).Some? && SharedNext(cfg, sh, e).value.row.None?
    ensures sh.row.None? && (e.Read? ==> e.row.None?) && !e.Write? && !(e.Claim? && e.won)
    ensures sh == NOTHING ==> !e.Land?
    ensures e.Read? || e.Claim? || e.Boot? ==> SharedNext(cfg, sh, e).value == sh
  {
  }

  lemma NothingHappensFirst(cfg: Config, lo: Local, e: Event)
    requires LocalNext(cfg, lo, e).Some? && !lo.Live?
    ensures e.Read? || e.Claim? || e.Boot? || e.Land?
    ensures e.Read? && e.row.None? ==> !LocalNext(cfg, lo, e).value.Live?
  {
  }

  lemma OneClaimStep(cfg: Config, s: Many, t: Move)
    requires BeforeTheClaim(s) && OneClaim(s) && Moved(cfg, s, t).Some?
    ensures OneClaim(Moved(cfg, s, t).value)
  {
    var s' := Moved(cfg, s, t).value;
    WinnersClaimed(cfg, if t.pid in s.procs then s.procs[t.pid] else Off, t.e);
    forall a, b | Claimed(s', a) && Claimed(s', b) ensures a == b {
      if t.e.Claim? && t.e.won {
        assert !Claimed(s, a) && !Claimed(s, b);
      } else {
        assert Claimed(s, a) && Claimed(s, b);
      }
    }
  }

  lemma MoneyRests(cfg: Config, sh: Shared, e: Event)
    requires SharedNext(cfg, sh, e).Some? && !e.Submit? && !e.Land?
    ensures var sh' := SharedNext(cfg, sh, e).value;
            && sh'.paid == sh.paid && sh'.inflight == sh.inflight && sh'.submits == sh.submits
            && sh'.accepted == sh.accepted
            && (sh.row.Some? ==> sh'.pinned == sh.pinned)
            && (sh.row.None? && !e.Write? && sh'.pinned != sh.pinned ==> e.Claim? && sh'.pinned == Some(e.claimer))
            && (e.Write? ==> sh'.pinned == sh.pinned)
  {
  }

  lemma SubmitStep(cfg: Config, s: Many, t: Move)
    requires OnlyWinnersMayPay(cfg) && OnePayer(cfg, s) && t.e.Submit? && Moved(cfg, s, t).Some?
    requires var s' := Moved(cfg, s, t).value; BeforeTheClaim(s') && OneClaim(s') && LookersCanLook(cfg, s')
    ensures OnePayer(cfg, Moved(cfg, s, t).value)
  {
    var s' := Moved(cfg, s, t).value;
    assert Claimed(s, t.pid);
    SubmitKeepsSole(cfg, s.sh, s.procs[t.pid].p, t.e.req, t.e.fate);
    forall pid | Claimed(s', pid) ensures Sole(cfg, s'.sh, s'.procs[pid].p) && Tried(s'.sh, s'.procs[pid].p) {
      assert pid == t.pid by { assert Claimed(s, pid); }
    }
  }

  lemma SubmitKeepsSole(cfg: Config, sh: Shared, p: Process, req: Request, fate: Fate)
    requires p.claimed && Sole(cfg, sh, p) && Tried(sh, p) && SpentOnce(cfg, sh)
    requires MaySubmit(cfg, p, req) && MayEndAs(cfg, fate)
    ensures var sh' := AfterSubmit(sh, req, fate);
            var p' := p.(stage := StageAfterSubmit(req, fate));
            Sole(cfg, sh', p') && Tried(sh', p') && SpentOnce(cfg, sh')
  {
  }

  lemma LandStep(cfg: Config, s: Many, t: Move)
    requires OnePayer(cfg, s) && t.e.Land? && Moved(cfg, s, t).Some?
    requires var s' := Moved(cfg, s, t).value; BeforeTheClaim(s') && OneClaim(s') && LookersCanLook(cfg, s')
    ensures OnePayer(cfg, Moved(cfg, s, t).value)
  {
    var s' := Moved(cfg, s, t).value;
    assert s'.procs == s.procs;
    forall pid | Claimed(s', pid) ensures Sole(cfg, s'.sh, s'.procs[pid].p) && Tried(s'.sh, s'.procs[pid].p) {
      assert Claimed(s, pid);
      assert s.sh.inflight[0] == RequestOf(s.procs[pid].p.run, s.procs[pid].p.c.settings);
    }
  }

  /** The winner's own other steps. */
  lemma SoleStep(cfg: Config, s: Many, t: Move)
    requires OnePayer(cfg, s) && Moved(cfg, s, t).Some? && !t.e.Submit? && !t.e.Land?
    requires Claimed(Moved(cfg, s, t).value, t.pid)
    ensures var s' := Moved(cfg, s, t).value;
            Sole(cfg, s'.sh, s'.procs[t.pid].p) && Tried(s'.sh, s'.procs[t.pid].p)
  {
    MoneyRests(cfg, s.sh, t.e);
    if t.e.Claim? {
    } else {
      WinnersClaimed(cfg, s.procs[t.pid], t.e);
      assert Claimed(s, t.pid);
      var p, sh, sh' := s.procs[t.pid].p, s.sh, Moved(cfg, s, t).value.sh;
      if t.e.Write? {
        SoleWrite(cfg, sh, p, t.e.run);
        SameBooks(cfg, sh, sh', AfterWrite(p, t.e.run));
      } else {
        if t.e.Find? { SoleFind(cfg, sh, p, t.e.req, t.e.found); } else { SoleOther(cfg, sh, p, t.e); }
        SameBooks(cfg, sh, sh', ProcessNext(cfg, p, t.e).value);
      }
    }
  }

  lemma SameBooks(cfg: Config, sh: Shared, sh': Shared, p: Process)
    requires Sole(cfg, sh, p) && Tried(sh, p)
    requires sh'.paid == sh.paid && sh'.inflight == sh.inflight && sh'.submits == sh.submits
    requires sh'.accepted == sh.accepted && sh'.pinned == sh.pinned
    ensures Sole(cfg, sh', p) && Tried(sh', p)
  {
  }

  lemma SoleWrite(cfg: Config, sh: Shared, p: Process, run: Run)
    requires Sole(cfg, sh, p) && Tried(sh, p) && MayWrite(cfg, p, run) && p.claimed
    requires |sh.paid| + |sh.inflight| <= sh.submits
    ensures Sole(cfg, sh, AfterWrite(p, run)) && Tried(sh, AfterWrite(p, run))
  {
    if !Unopened(p.run.state) { RequestIsFixed(cfg, p, run, p.c.settings); }
    WriteFollowsTheTable(cfg, p, run);
    SoleWriteMoney(cfg, sh, p, run);
  }

  lemma WriteFollowsTheTable(cfg: Config, p: Process, run: Run)
    requires MayWrite(cfg, p, run)
    ensures p.run.state == run.state == Funding || CanTransition(p.run.state, run.state)
    ensures run.state == Retrying ==> p.stage == Refused(true) && p.attempt < p.c.settings.maxRetries
  {
  }

  lemma SoleWriteMoney(cfg: Config, sh: Shared, p: Process, run: Run)
    requires Sole(cfg, sh, p) && Tried(sh, p) && p.claimed && |sh.paid| + |sh.inflight| <= sh.submits
    requires !Unopened(p.run.state) ==> RequestOf(run, p.c.settings) == RequestOf(p.run, p.c.settings)
    requires p.run.state == run.state == Funding || CanTransition(p.run.state, run.state)
    requires run.state == Retrying ==> p.stage == Refused(true) && p.attempt < p.c.settings.maxRetries
    ensures Sole(cfg, sh, AfterWrite(p, run)) && Tried(sh, AfterWrite(p, run))
  {
  }

  lemma SoleFind(cfg: Config, sh: Shared, p: Process, req: Request, found: Option<Ref>)
    requires Sole(cfg, sh, p) && Tried(sh, p) && MayFind(cfg, p, req) && p.claimed && found == FirstPaid(sh.paid, req)
    ensures var p' := p.(stage := if found.Some? then Holding(req, found.value) else Clear(req, None));
            Sole(cfg, sh, p') && Tried(sh, p')
  {
    assert forall i | 0 <= i < |sh.paid| :: sh.paid[i] in sh.paid;
  }

  lemma SoleOther(cfg: Config, sh: Shared, p: Process, e: Event)
    requires Sole(cfg, sh, p) && Tried(sh, p) && ProcessNext(cfg, p, e).Some? && p.claimed
    requires !e.Write? && !e.Find? && !e.Submit?
    ensures Sole(cfg, sh, ProcessNext(cfg, p, e).value) && Tried(sh, ProcessNext(cfg, p, e).value)
  {
  }

  // ----- What the payments are for ---------------------------------------------------------------------

  /** The least version under which a run is stored in a state on the way to its settlement. */
  function Rank(s: State): nat {
    match s
    case Quoted => 1
    case Compliant => 2
    case Opened => 3
    case Funding => 4
    case Funded => 4
    case Verifying => 4
    case Retrying => 4
    case Settling => 4
    case _ => 0
  }

  /** A copy of the key's run, on the row or in a process: pinned to the manifest of the claim, and once
      opened on the winner's terms. Only a failed copy may be older than its version says. */
  ghost predicate CopyOf(run: Run, own: Run, hash: Canonical.Text) {
    && run.manifestHash == Some(hash) && Rank(run.state) <= run.version
    && (Unopened(run.state) ==> run.version <= Rank(run.state))
    && (run.version <= 2 ==> !HasSettlementRef(run))
    && ((!Unopened(run.state) && run.state != Failed) || run.version >= 4 ==>
          SameTerms(run, own) && !Unopened(own.state))
  }

  ghost predicate HolderOk(cfg: Config, sh: Shared, own: Process, q: Process) {
    && CopyOf(q.run, own.run, HashOf(own.c)) && Parsed(cfg.schema, q.c) && sh.row.Some?
    && (cfg.store == Postgres ==> q.run.version <= sh.row.value.version)
    && (!q.claimed && Unopened(q.run.state) ==> q.stage == Idle)
  }

  predicate SomethingPaid(sh: Shared) {
    sh.paid != [] || sh.inflight != []
  }

  /** Whatever was or may still be paid is what the winner's copy asks for. */
  ghost predicate PaidAsAgreed(cfg: Config, sh: Shared, own: Run, asset: string) {
    && (SomethingPaid(sh) ==>
          !Unopened(own.state) && sh.row.Some? && (cfg.store == Postgres ==> sh.row.value.version >= 4))
    && (forall i | 0 <= i < |sh.paid| :: Asks(sh.paid[i].req, own, asset))
    && (forall i | 0 <= i < |sh.inflight| :: Asks(sh.inflight[i], own, asset))
  }

  ghost predicate Owned(cfg: Config, sh: Shared, own: Process) {
    && sh.row.Some? && sh.pinned == Some(own.c) && Parsed(cfg.schema, own.c)
    && CopyOf(sh.row.value, own.run, HashOf(own.c))
    && PaidAsAgreed(cfg, sh, own.run, own.c.settings.asset)
  }

  ghost predicate OneSetOfTerms(cfg: Config, s: Many) {
    && BeforeTheClaim(s) && OneClaim(s) && (s.sh.row.Some? ==> exists pid :: Claimed(s, pid))
    && (forall pid | pid in s.procs :: StartedWell(cfg, s.procs[pid]))
    && (forall w | Claimed(s, w) :: Owned(cfg, s.sh, s.procs[w].p))
    && (forall w, pid | Claimed(s, w) && IsLive(s, pid) :: HolderOk(cfg, s.sh, s.procs[w].p, s.procs[pid].p))
  }

  ghost predicate StartedWell(cfg: Config, lo: Local) {
    lo.Booted? || lo.Unclaimed? ==> Parsed(cfg.schema, lo.c)
  }

  predicate IsLive(s: Many, pid: nat) {
    pid in s.procs && s.procs[pid].Live?
  }

  /** The winner's own write leaves every copy a copy. */
  lemma WinnersWrite(cfg: Config, p: Process, run: Run, hash: Canonical.Text)
    requires p.claimed && MayWrite(cfg, p, run) && CopyOf(p.run, p.run, hash)
    ensures CopyOf(run, run, hash) && run.version == p.run.version + 1
    ensures !Unopened(p.run.state) ==> SameTerms(p.run, run) && !Unopened(run.state)
  {
  }

  lemma CopiesStay(x: Run, own: Run, next: Run, hash: Canonical.Text)
    requires CopyOf(x, own, hash) && (!Unopened(own.state) ==> SameTerms(own, next) && !Unopened(next.state))
    ensures CopyOf(x, next, hash)
  {
  }

  /** What another process writes is a copy as well. */
  lemma ResumersWrite(cfg: Config, p: Process, run: Run, own: Run, hash: Canonical.Text)
    requires !p.claimed && MayWrite(cfg, p, run) && CopyOf(p.run, own, hash)
    requires Unopened(p.run.state) ==> p.stage == Idle
    ensures CopyOf(run, own, hash) && run.version == p.run.version + 1
  {
    RunsEndOnce(cfg, p, run);
  }

  lemma RunsEndOnce(cfg: Config, p: Process, run: Run)
    requires MayWrite(cfg, p, run)
    ensures !IsTerminal(p.run.state)
    ensures !p.claimed && Unopened(p.run.state) && p.stage == Idle && !HasSettlementRef(p.run) ==> run.state == Failed
  {
  }

  /** Either store keeps the row a copy. */
  lemma StoredCopies(kind: StoreKind, row: Run, run: Run, own: Run, hash: Canonical.Text)
    requires CopyOf(row, own, hash) && CopyOf(run, own, hash)
    ensures CopyOf(Put(kind, Some(row), run), own, hash) && CopyOf(Load(kind, row), own, hash)
    ensures kind == Postgres ==> var now := Put(kind, Some(row), run).version;
                                 now >= row.version && now >= run.version
    ensures Load(kind, row).version == row.version
  {
  }

  lemma {:induction false} TermsHold(cfg: Config, run: seq<Move>)
    requires Reaches(cfg, run).Some?
    ensures OneSetOfTerms(cfg, Reaches(cfg, run).value)
  {
    if run != [] {
      var n := |run| - 1;
      TermsHold(cfg, run[..n]);
      TermsStep(cfg, Reaches(cfg, run[..n]).value, run[n]);
    }
  }

  lemma TermsStep(cfg: Config, s: Many, t: Move)
    requires OneSetOfTerms(cfg, s) && Moved(cfg, s, t).Some?
    ensures OneSetOfTerms(cfg, Moved(cfg, s, t).value)
  {
    var s' := Moved(cfg, s, t).value;
    BeforeTheClaimStep(cfg, s, t);
    OneClaimStep(cfg, s, t);
    StartsWell(cfg, s, t);
    SomeoneClaimed(cfg, s, t);
    forall w | Claimed(s', w) ensures Owned(cfg, s'.sh, s'.procs[w].p) {
      OwnedStep(cfg, s, t, w);
    }
    forall w, pid | Claimed(s', w) && IsLive(s', pid)
      ensures HolderOk(cfg, s'.sh, s'.procs[w].p, s'.procs[pid].p)
    {
      HolderStep(cfg, s, t, w, pid);
    }
  }

  lemma StartsWell(cfg: Config, s: Many, t: Move)
    requires OneSetOfTerms(cfg, s) && Moved(cfg, s, t).Some?
    ensures forall pid | pid in Moved(cfg, s, t).value.procs :: StartedWell(cfg, Moved(cfg, s, t).value.procs[pid])
  {
  }

  lemma SomeoneClaimed(cfg: Config, s: Many, t: Move)
    requires OneSetOfTerms(cfg, s) && Moved(cfg, s, t).Some?
    ensures var s' := Moved(cfg, s, t).value; s'.sh.row.Some? ==> exists pid :: Claimed(s', pid)
  {
    var s' := Moved(cfg, s, t).value;
    if s.sh.row.Some? {
      var pid :| Claimed(s, pid);
      ClaimStays(cfg, s, t, pid);
      assert Claimed(s', pid);
    } else if s'.sh.row.Some? {
      assert t.e.Claim? && t.e.won;
      assert Claimed(s', t.pid);
    }
  }

  /** Only a write changes what a process holds, and one that resumed an unopened run has nothing else to do. */
  lemma HoldersRest(cfg: Config, lo: Local, e: Event)
    requires lo.Live? && !e.Write? && !e.Boot? && LocalNext(cfg, lo, e).Some?
    ensures var lo' := LocalNext(cfg, lo, e).value;
            && lo'.Live? && lo'.p.run == lo.p.run && lo'.p.c == lo.p.c && lo'.p.claimed == lo.p.claimed
            && (!lo.p.claimed && Unopened(lo.p.run.state) && lo.p.stage == Idle ==> lo'.p.stage == Idle)
  {
  }

  lemma RowRests(cfg: Config, sh: Shared, e: Event)
    requires SharedNext(cfg, sh, e).Some? && !e.Write? && !(e.Claim? && e.won)
    ensures SharedNext(cfg, sh, e).value.row == sh.row && SharedNext(cfg, sh, e).value.pinned == sh.pinned
  {
  }

  /** The new own copy of a claim that won. */
  lemma ClaimOwns(cfg: Config, s: Many, t: Move)
    requires OneSetOfTerms(cfg, s) && Moved(cfg, s, t).Some? && t.e.Claim? && t.e.won
    ensures var s' := Moved(cfg, s, t).value; var p := s'.procs[t.pid].p;
            && s'.procs[t.pid].Live? && Owned(cfg, s'.sh, p) && HolderOk(cfg, s'.sh, p, p)
            && forall pid :: IsLive(s', pid) ==> pid == t.pid
  {
  }

  lemma WinnerWrites(cfg: Config, s: Many, t: Move)
    requires OneSetOfTerms(cfg, s) && Moved(cfg, s, t).Some? && t.e.Write? && Claimed(s, t.pid)
    ensures Owned(cfg, Moved(cfg, s, t).value.sh, Moved(cfg, s, t).value.procs[t.pid].p)
  {
    var own := s.procs[t.pid].p;
    WinnersCopies(cfg, s.sh, own, own, t.e.run);
    CopiesStay(s.sh.row.value, own.run, t.e.run, HashOf(own.c));
    StoredCopies(cfg.store, s.sh.row.value, t.e.run, t.e.run, HashOf(own.c));
  }

  /** A copy next to the winner's write. */
  lemma WinnersCopies(cfg: Config, sh: Shared, own: Process, q: Process, run: Run)
    requires own.claimed && MayWrite(cfg, own, run) && CopyOf(own.run, own.run, HashOf(own.c))
    requires HolderOk(cfg, sh, own, q)
    ensures CopyOf(run, run, HashOf(own.c)) && CopyOf(q.run, run, HashOf(own.c)) && run.version == own.run.version + 1
    ensures !Unopened(own.run.state) ==> SameTerms(own.run, run) && !Unopened(run.state)
  {
    WinnersWrite(cfg, own, run, HashOf(own.c));
    CopiesStay(q.run, own.run, run, HashOf(own.c));
  }

  lemma WinnerWritesBeside(cfg: Config, s: Many, t: Move, pid: nat)
    requires OneSetOfTerms(cfg, s) && Moved(cfg, s, t).Some? && t.e.Write? && Claimed(s, t.pid) && IsLive(s, pid)
    ensures HolderOk(cfg, Moved(cfg, s, t).value.sh, Moved(cfg, s, t).value.procs[t.pid].p,
                     Moved(cfg, s, t).value.procs[pid].p)
  {
    var own, q := s.procs[t.pid].p, s.procs[pid].p;
    assert IsLive(s, t.pid);
    WinnersCopies(cfg, s.sh, own, q, t.e.run);
    CopiesStay(s.sh.row.value, own.run, t.e.run, HashOf(own.c));
    StoredCopies(cfg.store, s.sh.row.value, t.e.run, t.e.run, HashOf(own.c));
  }

  lemma ResumerWrites(cfg: Config, s: Many, t: Move, w: nat)
    requires OneSetOfTerms(cfg, s) && Moved(cfg, s, t).Some? && t.e.Write? && Claimed(s, w) && t.pid != w
    ensures Owned(cfg, Moved(cfg, s, t).value.sh, s.procs[w].p)
  {
    ResumersCopy(cfg, s, t, w);
    StoredCopies(cfg.store, s.sh.row.value, t.e.run, s.procs[w].p.run, HashOf(s.procs[w].p.c));
  }

  lemma ResumersCopy(cfg: Config, s: Many, t: Move, w: nat)
    requires OneSetOfTerms(cfg, s) && Moved(cfg, s, t).Some? && t.e.Write? && Claimed(s, w) && t.pid != w
    ensures s.procs[t.pid].Live? && !s.procs[t.pid].p.claimed
    ensures CopyOf(t.e.run, s.procs[w].p.run, HashOf(s.procs[w].p.c))
  {
    var own, q := s.procs[w].p, s.procs[t.pid].p;
    assert HolderOk(cfg, s.sh, own, q) by { assert IsLive(s, t.pid); }
    assert !q.claimed by { if q.claimed { assert Claimed(s, t.pid); } }
    ResumersWrite(cfg, q, t.e.run, own.run, HashOf(own.c));
  }

  lemma ResumerWritesBeside(cfg: Config, s: Many, t: Move, w: nat, pid: nat)
    requires OneSetOfTerms(cfg, s) && Moved(cfg, s, t).Some? && t.e.Write? && Claimed(s, w) && t.pid != w
    requires IsLive(s, pid)
    ensures HolderOk(cfg, Moved(cfg, s, t).value.sh, s.procs[w].p, Moved(cfg, s, t).value.procs[pid].p)
  {
    ResumersCopy(cfg, s, t, w);
    StoredCopies(cfg.store, s.sh.row.value, t.e.run, s.procs[w].p.run, HashOf(s.procs[w].p.c));
    assert HolderOk(cfg, s.sh, s.procs[w].p, s.procs[pid].p);
  }

  /** A submit asks for what the winner's copy says. */
  lemma SubmitAsks(cfg: Config, sh: Shared, own: Process, q: Process, req: Request)
    requires HolderOk(cfg, sh, own, q) && Parsed(cfg.schema, own.c) && MaySubmit(cfg, q, req)
    requires q.claimed ==> q.c == own.c
    ensures Asks(req, own.run, own.c.settings.asset) && !Unopened(own.run.state)
    ensures cfg.store == Postgres ==> sh.row.value.version >= 4
  {
    if !q.claimed { SameHashSameSettings(cfg.schema, q.c, own.c); }
  }

  lemma SubmitOwns(cfg: Config, s: Many, t: Move, w: nat)
    requires OneSetOfTerms(cfg, s) && Moved(cfg, s, t).Some? && t.e.Submit? && Claimed(s, w)
    ensures Owned(cfg, Moved(cfg, s, t).value.sh, s.procs[w].p)
  {
    var own, q := s.procs[w].p, s.procs[t.pid].p;
    assert HolderOk(cfg, s.sh, own, q) by { assert IsLive(s, t.pid); }
    if q.claimed { assert Claimed(s, t.pid); }
    SubmitAsks(cfg, s.sh, own, q, t.e.req);
    RowRests(cfg, s.sh, t.e);
  }

  lemma OwnedStep(cfg: Config, s: Many, t: Move, w: nat)
    requires OneSetOfTerms(cfg, s) && Moved(cfg, s, t).Some? && Claimed(Moved(cfg, s, t).value, w)
    ensures Owned(cfg, Moved(cfg, s, t).value.sh, Moved(cfg, s, t).value.procs[w].p)
  {
    if t.e.Claim? && t.e.won {
      ClaimOwns(cfg, s, t);
      assert IsLive(Moved(cfg, s, t).value, w);
    } else {
      ClaimedBefore(cfg, s, t, w);
      if t.e.Write? {
        if t.pid == w { WinnerWrites(cfg, s, t); } else { ResumerWrites(cfg, s, t, w); }
      } else {
        if t.pid == w { HoldersRest(cfg, s.procs[w], t.e); }
        RowRests(cfg, s.sh, t.e);
        if t.e.Submit? { SubmitOwns(cfg, s, t, w); }
        else if t.e.Land? { LandOwns(cfg, s.sh, s.procs[w].p, t.e.ref); }
        else { MoneyRests(cfg, s.sh, t.e); }
      }
    }
  }

  lemma LandOwns(cfg: Config, sh: Shared, own: Process, ref: Ref)
    requires Owned(cfg, sh, own) && sh.inflight != []
    ensures Owned(cfg, sh.(paid := sh.paid + [Payment(sh.inflight[0], ref)], inflight := sh.inflight[1..]), own)
  {
  }

  lemma ClaimedBefore(cfg: Config, s: Many, t: Move, w: nat)
    requires Moved(cfg, s, t).Some? && Claimed(Moved(cfg, s, t).value, w) && !(t.e.Claim? && t.e.won)
    ensures Claimed(s, w)
  {
    WinnersClaimed(cfg, if t.pid in s.procs then s.procs[t.pid] else Off, t.e);
  }

  lemma HolderStep(cfg: Config, s: Many, t: Move, w: nat, pid: nat)
    requires OneSetOfTerms(cfg, s) && Moved(cfg, s, t).Some?
    requires Claimed(Moved(cfg, s, t).value, w) && IsLive(Moved(cfg, s, t).value, pid)
    ensures var s' := Moved(cfg, s, t).value; HolderOk(cfg, s'.sh, s'.procs[w].p, s'.procs[pid].p)
  {
    if t.e.Claim? && t.e.won {
      ClaimOwns(cfg, s, t);
      assert IsLive(Moved(cfg, s, t).value, w);
    } else {
      ClaimedBefore(cfg, s, t, w);
      if t.e.Write? {
        if t.pid == w { WinnerWritesBeside(cfg, s, t, pid); } else { ResumerWritesBeside(cfg, s, t, w, pid); }
      } else {
        RowRests(cfg, s.sh, t.e);
        if t.pid == w { HoldersRest(cfg, s.procs[w], t.e); }
        if IsLive(s, pid) {
          if t.pid == pid { HoldersRest(cfg, s.procs[pid], t.e); }
        } else {
          JoinsHolding(cfg, s, t, w);
        }
      }
    }
  }

  /** A process that reads the row holds a copy. */
  lemma JoinsHolding(cfg: Config, s: Many, t: Move, w: nat)
    requires OneSetOfTerms(cfg, s) && Moved(cfg, s, t).Some? && Claimed(s, w)
    requires !IsLive(s, t.pid) && IsLive(Moved(cfg, s, t).value, t.pid) && !(t.e.Claim? && t.e.won)
    ensures HolderOk(cfg, s.sh, s.procs[w].p, Moved(cfg, s, t).value.procs[t.pid].p)
  {
    var own := s.procs[w].p;
    StoredCopies(cfg.store, s.sh.row.value, s.sh.row.value, own.run, HashOf(own.c));
  }

  /** Whatever any process pays, however their steps interleave and wherever they crash: it is what the
      winner of the claim has agreed with the anchor, in the asset of its manifest; and in Postgres it is
      what the row says. */
  lemma EveryPaymentIsAsAgreed(cfg: Config, run: seq<Move>, req: Request)
    requires Reaches(cfg, run).Some?
    requires var sh := Reaches(cfg, run).value.sh; req in sh.inflight || exists p :: p in sh.paid && p.req == req
    ensures var s := Reaches(cfg, run).value;
            && s.sh.row.Some? && s.sh.pinned.Some? && req.asset == s.sh.pinned.value.settings.asset
            && (exists pid :: Claimed(s, pid))
            && (forall pid | Claimed(s, pid) ::
                  var own := s.procs[pid].p.run;
                  && (own.depositAddress == Some(req.to) || (own.depositAddress.None? && req.to == ""))
                  && req.memo == own.memo && req.memoType == own.memoType
                  && own.settlementAmount == Some(req.amount))
    ensures cfg.store == Postgres ==>
              var row := Reaches(cfg, run).value.sh.row.value;
              && (row.depositAddress == Some(req.to) || (row.depositAddress.None? && req.to == ""))
              && req.memo == row.memo && req.memoType == row.memoType
              && row.settlementAmount == Some(req.amount)
  {
    TermsHold(cfg, run);
    var s := Reaches(cfg, run).value;
    forall pid | Claimed(s, pid) ensures Asks(req, s.procs[pid].p.run, s.sh.pinned.value.settings.asset) {
      assert Owned(cfg, s.sh, s.procs[pid].p);
    }
  }

  /** With a gate, or a submitter that cannot look, whatever runs at the same time and wherever it
      crashes: at most one submit succeeds, there are at most max_retries + 1 of them, and where a
      process can tell what became of the last one at most one payment exists or is under way. What is
      paid or under way is what the winner of the claim agreed with the anchor, and in Postgres what
      the row says. */
  lemma ConcurrentCallersPayOnce(cfg: Config, run: seq<Move>)
    requires OnlyWinnersMayPay(cfg) && Reaches(cfg, run).Some?
    ensures var sh := Reaches(cfg, run).value.sh;
            && sh.accepted <= 1 && (CanTell(cfg) ==> |sh.paid| + |sh.inflight| <= 1)
            && (sh.pinned.Some? ==>
                  |sh.paid| + |sh.inflight| <= sh.submits <= sh.pinned.value.settings.maxRetries + 1)
    ensures var s := Reaches(cfg, run).value;
            forall req | req in s.sh.inflight || exists p :: p in s.sh.paid && p.req == req ::
              && s.sh.row.Some? && s.sh.pinned.Some?
              && (exists pid :: Claimed(s, pid) && Asks(req, s.procs[pid].p.run, s.sh.pinned.value.settings.asset))
              && (cfg.store == Postgres ==> Asks(req, s.sh.row.value, s.sh.pinned.value.settings.asset))
  {
    OnePayerHolds(cfg, run);
    var s := Reaches(cfg, run).value;
    forall req | req in s.sh.inflight || exists p :: p in s.sh.paid && p.req == req
      ensures s.sh.row.Some? && s.sh.pinned.Some?
      ensures exists pid :: Claimed(s, pid) && Asks(req, s.procs[pid].p.run, s.sh.pinned.value.settings.asset)
      ensures cfg.store == Postgres ==> Asks(req, s.sh.row.value, s.sh.pinned.value.settings.asset)
    {
      EveryPaymentIsAsAgreed(cfg, run, req);
    }
  }

  lemma {:induction false} PrefixReaches(cfg: Config, run: seq<Move>, k: nat)
    requires Reaches(cfg, run).Some? && k <= |run|
    ensures Reaches(cfg, run[..k]).Some?
  {
    if k < |run| {
      assert run[..|run| - 1][..k] == run[..k];
      PrefixReaches(cfg, run[..|run| - 1], k);
    } else {
      assert run[..k] == run;
    }
  }

  /** The winner of the claim stays the winner. */
  lemma {:induction false} ClaimsLast(cfg: Config, run: seq<Move>, k: nat, pid: nat)
    requires Reaches(cfg, run).Some? && k <= |run| && Reaches(cfg, run[..k]).Some?
    requires Claimed(Reaches(cfg, run[..k]).value, pid)
    ensures Claimed(Reaches(cfg, run).value, pid)
  {
    if k < |run| {
      var n := |run| - 1;
      assert run[..n][..k] == run[..k];
      ClaimsLast(cfg, run[..n], k, pid);
      ClaimStays(cfg, Reaches(cfg, run[..n]).value, run[n], pid);
    } else {
      assert run[..k] == run;
    }
  }

  lemma ClaimStays(cfg: Config, s: Many, t: Move, pid: nat)
    requires Moved(cfg, s, t).Some? && Claimed(s, pid)
    ensures Claimed(Moved(cfg, s, t).value, pid)
  {
    if t.pid == pid { StaysLive(cfg, s.procs[pid], t.e); }
  }

  lemma StaysLive(cfg: Config, lo: Local, e: Event)
    requires lo.Live? && !e.Boot? && LocalNext(cfg, lo, e).Some?
    ensures var lo' := LocalNext(cfg, lo, e).value; lo'.Live? && lo'.p.claimed == lo.p.claimed
  {
    if !e.Land? && ProcessNext(cfg, lo.p, e).Some? { OthersKeepTheClaim(cfg, lo.p, e); }
  }

  /** Step `i` led from one state to the next. */
  ghost predicate Linked(cfg: Config, states: seq<Many>, run: seq<Move>, i: nat) {
    |states| == |run| + 1 && i < |run| && Moved(cfg, states[i], run[i]) == Some(states[i + 1])
  }

  /** The interleaving can happen, state by state. */
  ghost predicate Ran(cfg: Config, states: seq<Many>, run: seq<Move>) {
    |states| == |run| + 1 && states[0] == QUIET && forall i | 0 <= i < |run| :: Linked(cfg, states, run, i)
  }

  lemma {:induction false} RanReaches(cfg: Config, states: seq<Many>, run: seq<Move>)
    requires Ran(cfg, states, run)
    ensures Reaches(cfg, run) == Some(states[|run|])
  {
    if run != [] {
      var n := |run| - 1;
      var states', run' := states[..n + 1], run[..n];
      forall i | 0 <= i < n ensures Linked(cfg, states', run', i) {
        assert Linked(cfg, states, run, i);
      }
      RanReaches(cfg, states', run');
      assert Linked(cfg, states, run, n);
    }
  }

  /** With a gate, or a submitter that cannot look, every submit there ever is comes from one
      process: the one that created the row. No process that resumed it ever pays. */
  lemma OnlyTheWinnerPays(cfg: Config, states: seq<Many>, run: seq<Move>, i: nat, j: nat)
    requires OnlyWinnersMayPay(cfg) && Ran(cfg, states, run) && i <= j < |run|
    requires run[i].e.Submit? && run[j].e.Submit?
    ensures run[i].pid == run[j].pid && Claimed(states[|run|], run[i].pid)
  {
    RanReaches(cfg, states, run);
    SubmitterClaimed(cfg, run, i);
    SubmitterClaimed(cfg, run, j);
    OnePayerHolds(cfg, run);
  }

  lemma SubmitterClaimed(cfg: Config, run: seq<Move>, i: nat)
    requires OnlyWinnersMayPay(cfg) && Reaches(cfg, run).Some? && i < |run| && run[i].e.Submit?
    ensures Claimed(Reaches(cfg, run).value, run[i].pid)
  {
    PrefixReaches(cfg, run, i);
    PrefixReaches(cfg, run, i + 1);
    assert run[..i + 1][..i] == run[..i];
    OnePayerHolds(cfg, run[..i]);
    assert Claimed(Reaches(cfg, run[..i]).value, run[i].pid);
    ClaimsLast(cfg, run, i, run[i].pid);
  }

  // ----- The SQL row under any number of workers -----------------------------------------------------

  /** A later row of the same key. */
  ghost predicate Matured(row: Option<Run>, now: Option<Run>) {
    row.Some? ==> now.Some? && Matures(row.value, now.value)
  }

  /** In Postgres the row only matures, however the workers' writes interleave. */
  lemma {:induction false} TheRowOnlyMatures(cfg: Config, run: seq<Move>, k: nat)
    requires cfg.store == Postgres && Reaches(cfg, run).Some? && k <= |run|
    ensures Reaches(cfg, run[..k]).Some?
    ensures Matured(Reaches(cfg, run[..k]).value.sh.row, Reaches(cfg, run).value.sh.row)
  {
    PrefixReaches(cfg, run, k);
    if k < |run| {
      var n := |run| - 1;
      assert run[..n][..k] == run[..k];
      TheRowOnlyMatures(cfg, run[..n], k);
      var sh := Reaches(cfg, run[..n]).value.sh;
      RowStep(cfg, sh, run[n].e);
      MaturedOn(Reaches(cfg, run[..k]).value.sh.row, sh.row, Reaches(cfg, run).value.sh.row);
    } else {
      assert run[..k] == run;
    }
  }

  lemma MaturedOn(a: Option<Run>, b: Option<Run>, c: Option<Run>)
    requires Matured(a, b) && Matured(b, c)
    ensures Matured(a, c)
  {
  }

  lemma RowStep(cfg: Config, sh: Shared, e: Event)
    requires cfg.store == Postgres && SharedNext(cfg, sh, e).Some?
    ensures Matured(sh.row, SharedNext(cfg, sh, e).value.row)
  {
    if e.Write? && sh.row.Some? {
      NothingErasesEvidence(sh.row.value, [e.run]);
      assert AfterPuts(sh.row.value, [e.run]) == PgMerge(sh.row.value, e.run);
    }
  }

  // ----- What one worker at a time and the gate are needed for ----------------------------------------

  function Tag(h: seq<Event>, pid: nat): seq<Move> {
    seq(|h|, i requires 0 <= i < |h| => By(pid, h[i]))
  }

  /** One process by itself is an interleaving. */
  lemma {:induction false} Solo(cfg: Config, h: seq<Event>, pid: nat)
    requires W.Once(h) && After(cfg, h).Some?
    ensures Reaches(cfg, Tag(h, pid)) == Some(Many(After(cfg, h).value.sh, map[pid := After(cfg, h).value.lo]))
  {
    var n := |h| - 1;
    assert Tag(h, pid)[..n] == Tag(h[..n], pid);
    if n > 0 {
      Solo(cfg, h[..n], pid);
      var lo, lo' := After(cfg, h[..n]).value.lo, After(cfg, h).value.lo;
      assert map[pid := lo][pid := lo'] == map[pid := lo'];
    } else {
      assert h[..n] == [] && Tag(h, pid)[..n] == [];
    }
  }

  /** The later run goes on without another process starting. */
  ghost predicate GoesOn(run: seq<Move>, run': seq<Move>) {
    run <= run' && forall i | |run| <= i < |run'| :: !run'[i].e.Boot?
  }

  /** Another process finds the row and resumes it. */
  lemma Joins(cfg: Config, run: seq<Move>, s: Many, pid: nat, c: Corridor) returns (run': seq<Move>, s': Many)
    requires Reaches(cfg, run) == Some(s) && pid !in s.procs && Parsed(cfg.schema, c)
    requires s.sh.row.Some? && SettlementAgrees(s.sh.row.value) && !IsTerminal(s.sh.row.value.state)
    ensures Reaches(cfg, run') == Some(s') && run' == run + [By(pid, Boot(c, false)), By(pid, Read(s.sh.row))]
    ensures s' == Many(s.sh, s.procs[pid := Start(c, false, false, s.sh.row.value)])
  {
    var boot, read := By(pid, Boot(c, false)), By(pid, Read(s.sh.row));
    DecodingIsExact(s.sh.row.value);
    OneMoreStep(cfg, run, boot);
    OneMoreStep(cfg, run + [boot], read);
    run' := run + [boot] + [read];
    assert run' == run + [boot, read];
    s' := Many(s.sh, s.procs[pid := Start(c, false, false, s.sh.row.value)]);
    assert s'.procs == s.procs[pid := Booted(c, false)][pid := s'.procs[pid]];
  }

  /** A process takes an event of its own. */
  lemma Acts(cfg: Config, run: seq<Move>, s: Many, pid: nat, e: Event) returns (run': seq<Move>, s': Many)
    requires Reaches(cfg, run) == Some(s) && pid in s.procs && s.procs[pid].Live?
    requires !e.Boot? && !e.Land? && !e.Read? && !e.Claim?
    requires ProcessNext(cfg, s.procs[pid].p, e).Some? && SharedNext(cfg, s.sh, e).Some?
    ensures Reaches(cfg, run') == Some(s') && GoesOn(run, run')
    ensures s' == Many(SharedNext(cfg, s.sh, e).value,
                       s.procs[pid := Live(ProcessNext(cfg, s.procs[pid].p, e).value)])
  {
    OneMoreStep(cfg, run, By(pid, e));
    run' := run + [By(pid, e)];
    s' := Moved(cfg, s, By(pid, e)).value;
  }

  lemma ActsWrite(cfg: Config, run: seq<Move>, s: Many, pid: nat, r: Run) returns (run': seq<Move>, s': Many)
    requires Reaches(cfg, run) == Some(s) && pid in s.procs && s.procs[pid].Live?
    requires MayWrite(cfg, s.procs[pid].p, r)
    ensures Reaches(cfg, run') == Some(s') && GoesOn(run, run')
    ensures s'.sh == s.sh.(row := Some(Put(cfg.store, s.sh.row, r)),
                           retries := if r.state == Retrying then s.sh.retries + 1 else s.sh.retries)
    ensures s'.procs == s.procs[pid := Live(AfterWrite(s.procs[pid].p, r))]
  {
    run', s' := Acts(cfg, run, s, pid, Write(r));
  }

  /** A resumed process that found no payment in time, and has no gate to stop it. */
  ghost predicate Payer(cfg: Config, p: Process) {
    && !cfg.gate && !p.claimed && !Repinned(p) && p.entered in {Opened, Funded} && !HasSettlementRef(p.run)
    && p.stage == Clear(RequestOf(p.run, p.c.settings), Some(W.EARLY)) && W.WithTheQuote(p.run) && Drawn(p)
  }

  /** ... pays. */
  lemma ResumerPays(cfg: Config, run: seq<Move>, s: Many, pid: nat, ref: Ref)
    returns (run': seq<Move>, s': Many)
    requires Reaches(cfg, run) == Some(s) && pid in s.procs && s.procs[pid].Live?
    requires Payer(cfg, s.procs[pid].p) && s.procs[pid].p.run.state == s.procs[pid].p.entered
    ensures Reaches(cfg, run') == Some(s') && GoesOn(run, run')
    ensures |s'.sh.paid| == |s.sh.paid| + 1 && s'.sh.pinned == s.sh.pinned
    ensures pid in s'.procs && s'.procs == s.procs[pid := s'.procs[pid]]
  {
    run', s' := ResumerSettles(cfg, run, s, pid);
    var p := s'.procs[pid].p;
    run', s' := ActsSubmit(cfg, run', s', pid, RequestOf(p.run, p.c.settings), ref);
    assert s'.procs == s.procs[pid := s'.procs[pid]];
  }

  /** It walks to `settling`. */
  lemma ResumerSettles(cfg: Config, run: seq<Move>, s: Many, pid: nat) returns (run': seq<Move>, s': Many)
    requires Reaches(cfg, run) == Some(s) && pid in s.procs && s.procs[pid].Live?
    requires Payer(cfg, s.procs[pid].p) && s.procs[pid].p.run.state == s.procs[pid].p.entered
    ensures Reaches(cfg, run') == Some(s') && GoesOn(run, run')
    ensures var p := s.procs[pid].p;
            s'.procs == s.procs[pid := Live(p.(run := Runs.Step(Runs.Step(p.run, Verifying), Settling)))]
    ensures MaySubmit(cfg, s'.procs[pid].p, RequestOf(s'.procs[pid].p.run, s'.procs[pid].p.c.settings))
    ensures var r := Runs.Step(s.procs[pid].p.run, Verifying);
            s'.sh == s.sh.(row := Some(Put(cfg.store, Some(Put(cfg.store, s.sh.row, r)), Runs.Step(r, Settling))))
  {
    var p := s.procs[pid].p;
    var r := Runs.Step(p.run, Verifying);
    PayersWalkOn(cfg, p);
    PayersSettle(cfg, p.(run := r));
    run', s' := WritesTwice(cfg, run, s, pid, r, Runs.Step(r, Settling));
  }

  lemma WritesTwice(cfg: Config, run: seq<Move>, s: Many, pid: nat, r: Run, r': Run)
    returns (run': seq<Move>, s': Many)
    requires Reaches(cfg, run) == Some(s) && pid in s.procs && s.procs[pid].Live?
    requires MayWrite(cfg, s.procs[pid].p, r) && MayWrite(cfg, AfterWrite(s.procs[pid].p, r), r')
    requires r.state != Retrying && r'.state != Retrying
    ensures Reaches(cfg, run') == Some(s') && GoesOn(run, run')
    ensures s'.sh == s.sh.(row := Some(Put(cfg.store, Some(Put(cfg.store, s.sh.row, r)), r')))
    ensures s'.procs == s.procs[pid := Live(AfterWrite(AfterWrite(s.procs[pid].p, r), r'))]
  {
    var run1, s1 := ActsWrite(cfg, run, s, pid, r);
    run', s' := ActsWrite(cfg, run1, s1, pid, r');
    GoesOnAndOn(run, run1, run');
    TwiceUpdated(s.procs, pid, s1.procs[pid], s'.procs[pid]);
  }

  lemma GoesOnAndOn(run: seq<Move>, run1: seq<Move>, run2: seq<Move>)
    requires GoesOn(run, run1) && GoesOn(run1, run2)
    ensures GoesOn(run, run2)
  {
  }

  lemma TwiceUpdated(procs: map<nat, Local>, pid: nat, a: Local, b: Local)
    ensures procs[pid := a][pid := b] == procs[pid := b]
  {
  }

  lemma PayersWalkOn(cfg: Config, p: Process)
    requires Payer(cfg, p) && p.run.state == p.entered
    ensures var run := Runs.Step(p.run, Verifying);
            MayWrite(cfg, p, run) && AfterWrite(p, run) == p.(run := run) && Payer(cfg, p.(run := run))
  {
  }

  lemma PayersSettle(cfg: Config, p: Process)
    requires Payer(cfg, p) && p.run.state == Verifying
    ensures var run := Runs.Step(p.run, Settling);
            && MayWrite(cfg, p, run) && AfterWrite(p, run) == p.(run := run)
            && MaySubmit(cfg, p.(run := run), RequestOf(run, p.c.settings))
  {
  }

  lemma ActsSubmit(cfg: Config, run: seq<Move>, s: Many, pid: nat, req: Request, ref: Ref)
    returns (run': seq<Move>, s': Many)
    requires Reaches(cfg, run) == Some(s) && pid in s.procs && s.procs[pid].Live?
    requires MaySubmit(cfg, s.procs[pid].p, req)
    ensures Reaches(cfg, run') == Some(s') && GoesOn(run, run') && s'.sh.pinned == s.sh.pinned
    ensures s'.sh == AfterSubmit(s.sh, req, Accepted(ref))
    ensures s'.procs == s.procs[pid := Live(s.procs[pid].p.(stage := Holding(req, ref)))]
  {
    run', s' := Acts(cfg, run, s, pid, Submit(req, Accepted(ref)));
  }

  /** A resumed process looks, finds nothing, and reads the clock. */
  lemma FindsNothing(cfg: Config, run: seq<Move>, s: Many, pid: nat) returns (run': seq<Move>, s': Many)
    requires Reaches(cfg, run) == Some(s) && pid in s.procs && s.procs[pid].Live?
    requires var p := s.procs[pid].p;
             !p.claimed && MayFind(cfg, p, RequestOf(p.run, p.c.settings)) && p.run.state != Settling
    requires s.sh.paid == []
    ensures Reaches(cfg, run') == Some(s') && GoesOn(run, run') && s'.sh == s.sh
    ensures var p := s.procs[pid].p;
            s'.procs == s.procs[pid := Live(p.(stage := Clear(RequestOf(p.run, p.c.settings), Some(W.EARLY))))]
  {
    var p := s.procs[pid].p;
    var run1, s1 := Acts(cfg, run, s, pid, Find(RequestOf(p.run, p.c.settings), None));
    run', s' := ReadsClock(cfg, run1, s1, pid, W.EARLY);
    GoesOnAndOn(run, run1, run');
    TwiceUpdated(s.procs, pid, s1.procs[pid], s'.procs[pid]);
  }

  lemma ReadsClock(cfg: Config, run: seq<Move>, s: Many, pid: nat, at: int) returns (run': seq<Move>, s': Many)
    requires Reaches(cfg, run) == Some(s) && pid in s.procs && s.procs[pid].Live?
    requires var p := s.procs[pid].p;
             p.stage.Gated? || (p.stage.Clear? && !p.claimed && p.run.state != Settling)
    ensures Reaches(cfg, run') == Some(s') && GoesOn(run, run') && s'.sh == s.sh
    ensures var p := s.procs[pid].p;
            s'.procs == s.procs[pid := Live(p.(stage := if p.stage.Gated? then Gated(p.stage.passed, Some(at))
                                                        else Clear(p.stage.req, Some(at))))]
  {
    run', s' := Acts(cfg, run, s, pid, Clock(at));
  }

  /** Every process was called with the manifest of this hash. */
  ghost predicate OneManifest(run: seq<Move>, hash: Canonical.Text) {
    forall i | 0 <= i < |run| && run[i].e.Boot? :: HashOf(run[i].e.c) == hash
  }

  /** The winner is ready for its gate, and two others have read its row. */
  ghost function Gathered(cfg: Config, c: Corridor): Many {
    var ready, run := W.ReadySys(cfg, c), W.AReadyRun(cfg, c);
    Many(ready.sh, map[0 := ready.lo, 1 := Start(c, false, false, run), 2 := Start(c, false, false, run)])
  }

  lemma Gathering(cfg: Config, c: Corridor) returns (run: seq<Move>)
    requires Parsed(cfg.schema, c)
    ensures Reaches(cfg, run) == Some(Gathered(cfg, c)) && OneManifest(run, HashOf(c))
  {
    var s: Many;
    run := OneJoined(cfg, c);
    run, s := Joins(cfg, run, Reaches(cfg, run).value, 2, c);
    assert s.procs == Gathered(cfg, c).procs;
  }

  lemma OneJoined(cfg: Config, c: Corridor) returns (run: seq<Move>)
    requires Parsed(cfg.schema, c)
    ensures var ready, row := W.ReadySys(cfg, c), W.AReadyRun(cfg, c);
            Reaches(cfg, run) == Some(Many(ready.sh, map[0 := ready.lo, 1 := Start(c, false, false, row)]))
    ensures OneManifest(run, HashOf(c))
  {
    var s: Many;
    run := WinnerReady(cfg, c);
    run, s := Joins(cfg, run, Reaches(cfg, run).value, 1, c);
    assert s.procs == map[0 := W.ReadySys(cfg, c).lo, 1 := s.procs[1]];
  }

  lemma WinnerReady(cfg: Config, c: Corridor) returns (run: seq<Move>)
    requires Parsed(cfg.schema, c)
    ensures Reaches(cfg, run) == Some(Many(W.ReadySys(cfg, c).sh, map[0 := W.ReadySys(cfg, c).lo]))
    ensures OneManifest(run, HashOf(c))
  {
    var h := W.Readying(cfg, c);
    Solo(cfg, h, 0);
    run := Tag(h, 0);
    forall i | 0 <= i < |run| && run[i].e.Boot? ensures HashOf(run[i].e.c) == HashOf(c) {
      assert h[i] in h;
    }
  }

  /** Without a gate two processes that resume the same opened run can both pay. */
  lemma TwoResumersPayTwice(cfg: Config, c: Corridor) returns (run: seq<Move>)
    requires W.Plain(cfg, c) && !cfg.gate && cfg.canFind
    ensures Reaches(cfg, run).Some? && Reaches(cfg, run).value.sh.pinned == Some(c)
    ensures |Reaches(cfg, run).value.sh.paid| == 2
  {
    var s: Many;
    run, s := BothLook(cfg, c);
    LookersPay(cfg, c);
    run, s := ResumerPays(cfg, run, s, 1, Stellar("a"));
    run, s := ResumerPays(cfg, run, s, 2, Stellar("b"));
  }

  /** Two processes have read the same row, looked and found nothing. */
  lemma BothLook(cfg: Config, c: Corridor) returns (run: seq<Move>, s: Many)
    requires W.Plain(cfg, c) && cfg.canFind && !cfg.gate
    ensures Reaches(cfg, run) == Some(s) && OneManifest(run, HashOf(c)) && s.sh == W.ReadySys(cfg, c).sh
    ensures 1 in s.procs && s.procs[1] == Live(ALooker(cfg, c)) && 2 in s.procs && s.procs[2] == s.procs[1]
  {
    run := Gathering(cfg, c);
    s := Gathered(cfg, c);
    var before := run;
    run, s := FindsNothing(cfg, run, s, 1);
    run, s := FindsNothing(cfg, run, s, 2);
    StillOneManifest(before, run, HashOf(c));
  }

  /** The manifest stays the one everybody is called with. */
  lemma StillOneManifest(run: seq<Move>, run': seq<Move>, hash: Canonical.Text)
    requires OneManifest(run, hash) && GoesOn(run, run')
    ensures OneManifest(run', hash)
  {
  }

  ghost function ALooker(cfg: Config, c: Corridor): Process {
    var run := W.AReadyRun(cfg, c);
    Process(c, false, false, run.state, run, 0, Clear(RequestOf(run, c.settings), Some(W.EARLY)), false, false)
  }

  lemma LookersPay(cfg: Config, c: Corridor)
    requires W.Plain(cfg, c) && !cfg.gate
    ensures Payer(cfg, ALooker(cfg, c))
  {
  }

  ghost predicate PaidTwice(cfg: Config, c: Corridor, run: seq<Move>) {
    && Reaches(cfg, run).Some? && Reaches(cfg, run).value.sh.pinned == Some(c)
    && |Reaches(cfg, run).value.sh.paid| >= 2
  }

  /** Exactly when concurrent callers can pay twice: resumed processes can pay, having no gate and a
      submitter that can look; or one process alone can. */
  lemma ConcurrentPaymentExactly(cfg: Config, c: Corridor)
    requires W.Plain(cfg, c)
    ensures (exists run :: PaidTwice(cfg, c, run)) <==>
              || (!cfg.gate && cfg.canFind)
              || (c.settings.maxRetries > 0 && (cfg.lateRetries || (cfg.misreports && !cfg.canFind)))
  {
    if !OnlyWinnersMayPay(cfg) {
      var run := TwoResumersPayTwice(cfg, c);
      assert PaidTwice(cfg, c, run);
    } else if c.settings.maxRetries > 0 && !CanTell(cfg) {
      var h := W.PaysTwice(cfg, c);
      Solo(cfg, h, 0);
      assert PaidTwice(cfg, c, Tag(h, 0));
    } else {
      forall run ensures !PaidTwice(cfg, c, run) {
        if PaidTwice(cfg, c, run) { ConcurrentCallersPayOnce(cfg, run); }
      }
    }
  }

  // ----- Refunds under any number of workers ------------------------------------------------------------

  predicate WorksFor(lo: Local, settings: Settings) {
    Safety.CorridorOf(lo).Some? ==> Safety.CorridorOf(lo).value.settings == settings
  }

  /** Under one manifest, refunds are asked for only if it says `refund_sender`. */
  lemma {:induction false} RefundsFollowThePolicy(cfg: Config, c: Corridor, run: seq<Move>)
    requires Parsed(cfg.schema, c) && Reaches(cfg, run).Some? && OneManifest(run, HashOf(c))
    ensures var s := Reaches(cfg, run).value;
            && (forall pid | pid in s.procs :: WorksFor(s.procs[pid], c.settings))
            && (s.sh.refunds != [] ==> c.settings.rollback == RefundSender)
  {
    if run != [] {
      var n := |run| - 1;
      RefundsFollowThePolicy(cfg, c, run[..n]);
      var s, t := Reaches(cfg, run[..n]).value, run[n];
      var lo := if t.pid in s.procs then s.procs[t.pid] else Off;
      Safety.KeepsItsCorridor(cfg, lo, t.e);
      if t.e.Boot? { SameHashSameSettings(cfg.schema, t.e.c, c); }
      if SharedNext(cfg, s.sh, t.e).value.refunds != s.sh.refunds { Safety.OnlyReversalsRefund(cfg, s.sh, lo, t.e); }
    }
  }

  ghost predicate RefundedTwice(cfg: Config, c: Corridor, run: seq<Move>) {
    Reaches(cfg, run).Some? && OneManifest(run, HashOf(c)) && |Reaches(cfg, run).value.sh.refunds| >= 2
  }

  /** Exactly when concurrent callers of one manifest can ask for two refunds: when it says
      `refund_sender`, whatever the ports promise. */
  lemma ConcurrentRefundsExactly(cfg: Config, c: Corridor)
    requires W.Plain(cfg, c)
    ensures (exists run :: RefundedTwice(cfg, c, run)) <==> c.settings.rollback == RefundSender
  {
    if c.settings.rollback == RefundSender {
      var run := TwoWorkersRefundTwice(cfg, c);
      assert RefundedTwice(cfg, c, run);
    } else {
      forall run ensures !RefundedTwice(cfg, c, run) {
        if RefundedTwice(cfg, c, run) { RefundsFollowThePolicy(cfg, c, run); }
      }
    }
  }

  /** Two processes that resume the same settled run can both ask for its refund, gate or not. */
  lemma TwoWorkersRefundTwice(cfg: Config, c: Corridor) returns (run: seq<Move>)
    requires W.Plain(cfg, c) && c.settings.rollback == RefundSender
    ensures Reaches(cfg, run).Some? && OneManifest(run, HashOf(c))
    ensures |Reaches(cfg, run).value.sh.refunds| == 2
  {
    var s: Many;
    run, s := TwoResumeTheSettled(cfg, c);
    var joined := run;
    run, s := ResumerRefunds(cfg, run, s, 1);
    run, s := ResumerRefunds(cfg, run, s, 2);
    assert GoesOn(joined, run);
  }

  /** It has read a settled run. */
  ghost predicate SettledReader(p: Process) {
    && !p.claimed && !Repinned(p) && p.entered == p.run.state == Settled && p.stage == Idle && !p.asked && !p.judged
    && p.run.settlementRef == Some(Stellar("a")) && p.run.settlementKind == Some(OnStellar)
    && p.run.settlementAmount == Some(1) && p.run.refundId.None?
  }

  /** Ready to ask for the refund of its settled run. */
  ghost predicate Refunder(p: Process) {
    SettledReader(p) && p.c.settings.rollback == RefundSender
  }

  lemma TwoResumeTheSettled(cfg: Config, c: Corridor) returns (run: seq<Move>, s: Many)
    requires W.Plain(cfg, c)
    ensures Reaches(cfg, run) == Some(s) && OneManifest(run, HashOf(c)) && s.sh.refunds == []
    ensures forall pid | pid in {1, 2} ::
              pid in s.procs && s.procs[pid].Live? && SettledReader(s.procs[pid].p) && s.procs[pid].p.c == c
  {
    var h := SettledHistory(cfg, c);
    Solo(cfg, h, 0);
    run := Tag(h, 0);
    s := Reaches(cfg, run).value;
    forall i | 0 <= i < |run| && run[i].e.Boot? ensures HashOf(run[i].e.c) == HashOf(c) {
      assert h[i] in h;
    }
    run, s := Joins(cfg, run, s, 1, c);
    run, s := Joins(cfg, run, s, 2, c);
  }

  lemma SettledHistory(cfg: Config, c: Corridor) returns (h: seq<Event>)
    requires W.Plain(cfg, c)
    ensures W.Once(h) && W.Calls(h, c, false) && After(cfg, h).Some?
    ensures var sh := After(cfg, h).value.sh;
            && sh.refunds == [] && sh.row.Some?
            && var row := sh.row.value;
            && row.state == Settled && row.settlementRef == Some(Stellar("a")) && row.settlementKind == Some(OnStellar)
            && row.settlementAmount == Some(1) && row.refundId.None? && row.manifestHash == Some(HashOf(c))
  {
    h := W.Readying(cfg, c);
    var s := W.ReadySys(cfg, c);
    h, s := W.ToSettling(cfg, h, s);
    h, s := W.Looks(cfg, h, s);
    h := PaidHistory(cfg, c, h, s);
  }

  lemma PaidHistory(cfg: Config, c: Corridor, h0: seq<Event>, s0: Sys) returns (h: seq<Event>)
    requires W.AtWork(cfg, h0, s0) && W.Once(h0)
    requires var p := s0.lo.p;
             && p.claimed && p.run.state == Settling && p.run.settlementAmount == Some(1)
             && MaySubmit(cfg, p, RequestOf(p.run, p.c.settings))
             && p.run.refundId.None? && p.run.manifestHash == Some(HashOf(c)) && s0.sh.refunds == []
             && p.c == c && !p.dry
    ensures W.Once(h) && W.Calls(h, c, false) && After(cfg, h).Some?
    ensures var sh := After(cfg, h).value.sh;
            && sh.refunds == [] && sh.row.Some?
            && var row := sh.row.value;
            && row.state == Settled && row.settlementRef == Some(Stellar("a")) && row.settlementKind == Some(OnStellar)
            && row.settlementAmount == Some(1) && row.refundId.None? && row.manifestHash == Some(HashOf(c))
  {
    var req := RequestOf(s0.lo.p.run, s0.lo.p.c.settings);
    var s: Sys;
    h, s := W.Takes(cfg, h0, s0, Submit(req, Accepted(Stellar("a"))));
    h, s := W.Writes(cfg, h, s, RecordSettlement(Runs.Step(s.lo.p.run, Settled), req, Stellar("a")));
  }

  lemma ActsRefund(cfg: Config, run: seq<Move>, s: Many, pid: nat, call: RefundCall)
    returns (run': seq<Move>, s': Many)
    requires Reaches(cfg, run) == Some(s) && pid in s.procs && s.procs[pid].Live?
    requires MayRefund(s.procs[pid].p, call)
    ensures Reaches(cfg, run') == Some(s') && GoesOn(run, run') && s'.sh.refunds == s.sh.refunds + [call]
    ensures s'.procs == s.procs[pid := Live(s.procs[pid].p.(stage := Idle, asked := true))]
  {
    run', s' := Acts(cfg, run, s, pid, Refund(call, None));
  }

  /** The anchor says no, the run recovers, and the chain is asked for the payment back. */
  lemma ResumerRefunds(cfg: Config, run: seq<Move>, s: Many, pid: nat) returns (run': seq<Move>, s': Many)
    requires Reaches(cfg, run) == Some(s) && pid in s.procs && s.procs[pid].Live? && Refunder(s.procs[pid].p)
    ensures Reaches(cfg, run') == Some(s') && GoesOn(run, run') && |s'.sh.refunds| == |s.sh.refunds| + 1
    ensures pid in s'.procs && s'.procs == s.procs[pid := s'.procs[pid]]
  {
    run', s' := IsTurnedDown(cfg, run, s, pid);
    run', s' := StartsRecovery(cfg, run', s', pid);
    run', s' := ActsRefund(cfg, run', s', pid, RefundCall(Stellar("a"), 1));
    assert s'.procs == s.procs[pid := s'.procs[pid]];
  }

  lemma IsTurnedDown(cfg: Config, run: seq<Move>, s: Many, pid: nat) returns (run': seq<Move>, s': Many)
    requires Reaches(cfg, run) == Some(s) && pid in s.procs && s.procs[pid].Live? && Refunder(s.procs[pid].p)
    ensures Reaches(cfg, run') == Some(s') && GoesOn(run, run') && s' == s
  {
    run', s' := Acts(cfg, run, s, pid, Reconcile(false));
    assert s'.procs == s.procs;
  }

  lemma StartsRecovery(cfg: Config, run: seq<Move>, s: Many, pid: nat) returns (run': seq<Move>, s': Many)
    requires Reaches(cfg, run) == Some(s) && pid in s.procs && s.procs[pid].Live? && Refunder(s.procs[pid].p)
    ensures Reaches(cfg, run') == Some(s') && GoesOn(run, run') && s'.sh.refunds == s.sh.refunds
    ensures pid in s'.procs && s'.procs == s.procs[pid := s'.procs[pid]]
    ensures s'.procs[pid].Live? && MayRefund(s'.procs[pid].p, RefundCall(Stellar("a"), 1))
  {
    run', s' := ActsWrite(cfg, run, s, pid, Runs.Step(s.procs[pid].p.run, Recovering));
  }
}
