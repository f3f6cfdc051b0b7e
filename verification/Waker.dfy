/**
 * Waking a sleeping reconcile loop: `InMemoryWaker` of packages/engine/src/ports.ts and the end
 * of a turn of `reconcileUntil` (packages/engine/src/verbs.ts), where the loop goes to sleep.
 */
module Wakers {
  import opened Prelude
  import R = Reconcile

  // ----- The waker --------------------------------------------------------------------------

  /** Listeners and delivered wakes, by transaction. A listener is the number of its loop. */
  class InMemoryWaker {
    var listeners: map<string, set<nat>>
    var aborted: set<string>

    constructor ()
      ensures listeners == map[] && aborted == {}
    {
      listeners, aborted := map[], {};
    }

    function Listening(tx: string): (ids: set<nat>)
      reads this
    {
      if tx in listeners then listeners[tx] else {}
    }

    function Snapshot(): Signals
      reads this
    {
      Signals(listeners, aborted)
    }

    /** The other transactions' listeners and every delivered wake are as they were. */
    twostate predicate OthersListenOn(tx: string)
      reads this
    {
      listeners - {tx} == old(listeners) - {tx} && aborted == old(aborted)
    }

    method AddEventListener(tx: string, id: nat)
      modifies this
      ensures Listening(tx) == old(Listening(tx)) + {id} && OthersListenOn(tx)
      ensures Snapshot() == old(Snapshot()).Listen(tx, id)
    {
      if tx !in listeners { listeners := listeners[tx := {}]; }
      listeners := listeners[tx := listeners[tx] + {id}];
    }

    method RemoveEventListener(tx: string, id: nat)
      modifies this
      ensures Listening(tx) == old(Listening(tx)) - {id} && OthersListenOn(tx)
      ensures Snapshot() == old(Snapshot()).Unlisten(tx, id)
    {
      if tx in listeners { listeners := listeners[tx := listeners[tx] - {id}]; }
    }

    method Reset(tx: string)
      modifies this
      ensures listeners == old(listeners) && forall t :: t in aborted <==> t in old(aborted) && t != tx
      ensures Snapshot() == old(Snapshot()).Reset(tx)
    {
      aborted := aborted - {tx};
    }

    /** Deliver a wake: `called` are the listeners it calls. */
    method Wake(tx: string) returns (called: set<nat>)
      modifies this
      ensures listeners == old(listeners) && forall t :: t in aborted <==> t in old(aborted) || t == tx
      ensures forall id :: id in called <==> tx in old(listeners) && id in old(listeners)[tx]
      ensures Snapshot() == old(Snapshot()).Abort(tx)
    {
      aborted := aborted + {tx};
      called := if tx in listeners then listeners[tx] else {};
    }
  }

  /** The waker's state as a value. */
  datatype Signals = Signals(listeners: map<string, set<nat>>, aborted: set<string>) {
    function Listening(tx: string): set<nat> {
      if tx in listeners then listeners[tx] else {}
    }
    function Listen(tx: string, id: nat): Signals {
      this.(listeners := listeners[tx := Listening(tx) + {id}])
    }
    function Unlisten(tx: string, id: nat): Signals {
      if tx in listeners then this.(listeners := listeners[tx := listeners[tx] - {id}]) else this
    }
    function Reset(tx: string): Signals {
      this.(aborted := aborted - {tx})
    }
    function Abort(tx: string): Signals {
      this.(aborted := aborted + {tx})
    }
  }

  // ----- Loops and wakes, in any order -----------------------------------------------------------

  /** Where a loop stands between two of its own steps. `Roused`: its sleep is over, the code
      after it has not run yet. */
  datatype Stand = Polling | Asleep | Roused | Finished

  /** Loop `id` reconciles transaction `of[id]`; `owed` are the loops that were woken and have not
      started a poll since. */
  datatype Shop = Shop(signals: Signals, of: map<nat, string>, stand: map<nat, Stand>, owed: set<nat>)

  datatype Happening =
    | Start(id: nat, tx: string)
    | Wake(tx: string)
    | Answer(id: nat, decides: bool)   // getTransaction came back
    | Timer(id: nat)                   // sleep(delay) is over
    | Continue(id: nat)                // the code after the sleep runs

  predicate Known(s: Shop, id: nat) {
    id in s.of && id in s.stand
  }

  function Awake(s: Shop, id: nat): Shop
    requires id in s.of
  {
    s.(signals := s.signals.Unlisten(s.of[id], id), stand := s.stand[id := Roused])
  }

  function StartPoll(s: Shop, id: nat): Shop
    requires id in s.of
  {
    s.(signals := s.signals.Reset(s.of[id]), stand := s.stand[id := Polling], owed := s.owed - {id})
  }

  /** A wake sets the flag and calls the listeners, each of which ends one loop's sleep. */
  function Woken(s: Shop, tx: string): Shop {
    var called := s.signals.Listening(tx);
    var aborted := s.signals.Abort(tx);
    Shop(if tx in aborted.listeners then aborted.(listeners := aborted.listeners[tx := {}]) else aborted,
         s.of,
         map id | id in s.stand :: if id in called && s.stand[id] == Asleep then Roused else s.stand[id],
         s.owed + set id | id in s.of && s.of[id] == tx && id in s.stand && s.stand[id] != Finished)
  }

  function Happens(s: Shop, h: Happening): Option<Shop> {
    match h
    case Start(id, tx) =>
      if id in s.of || id in s.stand then None
      else Some(s.(of := s.of[id := tx], stand := s.stand[id := Polling]))
    case Wake(tx) => Some(Woken(s, tx))
    case Answer(id, decides) =>
      if !Known(s, id) || s.stand[id] != Polling then None
      else if decides then Some(s.(stand := s.stand[id := Finished], owed := s.owed - {id}))
      else if s.of[id] in s.signals.aborted then Some(StartPoll(s, id))
      else Some(s.(signals := s.signals.Listen(s.of[id], id), stand := s.stand[id := Asleep]))
    case Timer(id) =>
      if Known(s, id) && s.stand[id] == Asleep then Some(Awake(s, id)) else None
    case Continue(id) =>
      if Known(s, id) && s.stand[id] == Roused then Some(StartPoll(s, id)) else None
  }

  const OPENING := Shop(Signals(map[], {}), map[], map[], {})

  /** Happening `i` led from one state to the next. */
  predicate Led(story: seq<Happening>, states: seq<Shop>, i: nat) {
    |states| == |story| + 1 && i < |story| && Happens(states[i], story[i]) == Some(states[i + 1])
  }

  ghost predicate Unfolds(story: seq<Happening>, states: seq<Shop>) {
    |states| == |story| + 1 && states[0] == OPENING && forall i | 0 <= i < |story| :: Led(story, states, i)
  }

  /** No two loops that are still running reconcile the same transaction. */
  ghost predicate OneLoopEach(s: Shop) {
    forall a, b | Running(s, a) && Running(s, b) && s.of[a] == s.of[b] :: a == b
  }

  predicate Running(s: Shop, id: nat) {
    Known(s, id) && s.stand[id] != Finished
  }

  ghost predicate Alone(states: seq<Shop>) {
    forall k | 0 <= k < |states| :: OneLoopEach(states[k])
  }

  predicate ListensFor(s: Shop, tx: string, id: nat) {
    id in s.signals.Listening(tx)
  }

  ghost predicate Attentive(s: Shop) {
    && (forall id :: id in s.of <==> id in s.stand)
    && (forall id :: Known(s, id) && s.stand[id] == Asleep ==> ListensFor(s, s.of[id], id))
    && (forall tx, id | ListensFor(s, tx, id) :: Known(s, id) && s.of[id] == tx && s.stand[id] == Asleep)
    && (forall id :: id in s.owed ==> Known(s, id) && s.stand[id] in {Polling, Roused})
    && (forall id :: id in s.owed && s.stand[id] == Polling ==> s.of[id] in s.signals.aborted)
  }

  lemma AttentiveStep(s: Shop, h: Happening)
    requires Attentive(s) && OneLoopEach(s) && Happens(s, h).Some?
    ensures Attentive(Happens(s, h).value)
  {
    match h
    case Start(id, tx) =>
      var s' := Happens(s, h).value;
      assert forall t, other :: ListensFor(s', t, other) <==> ListensFor(s, t, other);
    case Wake(tx) => WakeStep(s, tx);
    case Answer(id, decides) =>
      if decides {
        var s' := Happens(s, h).value;
        assert forall t, other :: ListensFor(s', t, other) <==> ListensFor(s, t, other);
      } else {
        if s.of[id] in s.signals.aborted { PollStep(s, id); } else { SleepStep(s, id); }
      }
    case Timer(id) => TimerStep(s, id);
    case Continue(id) => PollStep(s, id);
  }

  lemma WakeStep(s: Shop, tx: string)
    requires Attentive(s)
    ensures Attentive(Woken(s, tx))
  {
    var s' := Woken(s, tx);
    assert forall t :: s'.signals.Listening(t) == if t == tx then {} else s.signals.Listening(t);
    assert forall id | Known(s, id) && s.stand[id] == Asleep :: id in s.signals.Listening(s.of[id]);
    assert forall t, id :: ListensFor(s', t, id) <==> ListensFor(s, t, id) && t != tx;
    assert forall id | id in s.signals.Listening(tx) :: ListensFor(s, tx, id);
  }

  lemma PollStep(s: Shop, id: nat)
    requires Attentive(s) && OneLoopEach(s) && Running(s, id) && s.stand[id] != Asleep
    ensures Attentive(StartPoll(s, id))
  {
    var s' := StartPoll(s, id);
    assert s'.signals.listeners == s.signals.listeners;
    assert forall t, other :: ListensFor(s', t, other) <==> ListensFor(s, t, other);
    forall other | other in s'.owed && s'.stand[other] == Polling ensures s'.of[other] in s'.signals.aborted {
      assert Running(s, other) && other != id;
    }
  }

  lemma SleepStep(s: Shop, id: nat)
    requires Attentive(s) && Known(s, id) && s.stand[id] == Polling && s.of[id] !in s.signals.aborted
    ensures var s' := s.(signals := s.signals.Listen(s.of[id], id), stand := s.stand[id := Asleep]); Attentive(s')
  {
    var tx := s.of[id];
    var s' := s.(signals := s.signals.Listen(tx, id), stand := s.stand[id := Asleep]);
    assert forall t, other :: ListensFor(s', t, other) <==> ListensFor(s, t, other) || (t == tx && other == id);
  }

  lemma TimerStep(s: Shop, id: nat)
    requires Attentive(s) && Known(s, id) && s.stand[id] == Asleep
    ensures Attentive(Awake(s, id))
  {
    var tx, s' := s.of[id], Awake(s, id);
    assert forall t, other :: ListensFor(s', t, other) <==> ListensFor(s, t, other) && !(t == tx && other == id);
  }

  lemma {:induction false} StaysAttentive(story: seq<Happening>, states: seq<Shop>, k: nat)
    requires Unfolds(story, states) && Alone(states) && k <= |story|
    ensures Attentive(states[k])
  {
    if k > 0 {
      StaysAttentive(story, states, k - 1);
      assert Led(story, states, k - 1);
      AttentiveStep(states[k - 1], story[k - 1]);
    }
  }

  /** No wake-up is lost: with one running loop per transaction, a loop that was woken is not
      asleep, and its next step starts a poll or returns. */
  lemma NoWakeUpIsLost(story: seq<Happening>, states: seq<Shop>, k: nat, id: nat)
    requires Unfolds(story, states) && Alone(states) && k < |story| && id in states[k].owed
    ensures Known(states[k], id) && (states[k].stand[id] == Polling || states[k].stand[id] == Roused)
    ensures var h, next := story[k], states[k + 1];
            (h.Answer? || h.Timer? || h.Continue?) && h.id == id ==>
              Known(next, id) && next.stand[id] in {Polling, Finished} && id !in next.owed
  {
    StaysAttentive(story, states, k);
    assert Led(story, states, k);
    WokenLoopsGoOn(states[k], story[k], id);
  }

  lemma WokenLoopsGoOn(s: Shop, h: Happening, id: nat)
    requires Attentive(s) && Happens(s, h).Some? && id in s.owed
    ensures Known(s, id) && (s.stand[id] == Polling || s.stand[id] == Roused)
    ensures var next := Happens(s, h).value;
            (h.Answer? || h.Timer? || h.Continue?) && h.id == id ==>
              Known(next, id) && next.stand[id] in {Polling, Finished} && id !in next.owed
  {
  }

  /** A step of the loop itself. */
  predicate StepsItself(h: Happening, id: nat) {
    (h.Answer? || h.Timer? || h.Continue?) && h.id == id
  }

  /** A wake of a loop's transaction is heeded: until the loop takes a step of its own it is polling or
      roused, never asleep, and by that step it polls again or returns. */
  lemma AWakeIsHeeded(story: seq<Happening>, states: seq<Shop>, j: nat, k: nat, id: nat)
    requires Unfolds(story, states) && Alone(states) && j < k <= |story|
    requires story[j].Wake? && Running(states[j], id) && states[j].of[id] == story[j].tx
    requires forall i | j < i < k :: !StepsItself(story[i], id)
    ensures Known(states[k], id) && states[k].stand[id] in {Polling, Roused}
    ensures k < |story| && StepsItself(story[k], id) ==>
              Known(states[k + 1], id) && states[k + 1].stand[id] in {Polling, Finished}
  {
    StaysOwed(story, states, j, k, id);
    StaysAttentive(story, states, k);
    if k < |story| { NoWakeUpIsLost(story, states, k, id); }
  }

  lemma {:induction false} StaysOwed(story: seq<Happening>, states: seq<Shop>, j: nat, k: nat, id: nat)
    requires Unfolds(story, states) && Alone(states) && j < k <= |story|
    requires story[j].Wake? && Running(states[j], id) && states[j].of[id] == story[j].tx
    requires forall i | j < i < k :: !StepsItself(story[i], id)
    ensures id in states[k].owed
    decreases k
  {
    assert Led(story, states, k - 1);
    if j < k - 1 {
      StaysOwed(story, states, j, k - 1, id);
      StaysAttentive(story, states, k - 1);
    }
  }

  lemma OneMore(story: seq<Happening>, states: seq<Shop>, h: Happening)
    returns (story': seq<Happening>, states': seq<Shop>)
    requires Unfolds(story, states) && Happens(states[|story|], h).Some?
    ensures story' == story + [h] && states' == states + [Happens(states[|story|], h).value]
    ensures Unfolds(story', states')
  {
    story', states' := story + [h], states + [Happens(states[|story|], h).value];
    forall i | 0 <= i < |story'| ensures Led(story', states', i) {
      if i < |story| { assert Led(story, states, i); }
    }
  }

  // ----- What wakes cost -----------------------------------------------------------------------------

  /** The gap between two polls of loop `id` that this happening decides: a wake waiting when it would
      have gone to sleep, a wake that ended its sleep, or a sleep that lasted. */
  function GapAt(s: Shop, h: Happening, id: nat): seq<R.Gap> {
    match h
    case Answer(i, decides) =>
      if i == id && !decides && Known(s, id) && s.of[id] in s.signals.aborted then [R.Skipped] else []
    case Wake(tx) =>
      if id in s.signals.Listening(tx) && id in s.stand && s.stand[id] == Asleep then [R.Cut] else []
    case Timer(i) => if i == id then [R.Slept] else []
    case _ => []
  }

  /** The gaps of loop `id` in the first `k` happenings. */
  ghost function GapsOf(story: seq<Happening>, states: seq<Shop>, id: nat, k: nat): seq<R.Gap>
    requires |states| == |story| + 1 && k <= |story|
  {
    if k == 0 then [] else GapsOf(story, states, id, k - 1) + GapAt(states[k - 1], story[k - 1], id)
  }

  /** How many of the gaps were not slept through. */
  function Woke(gaps: seq<R.Gap>): nat {
    if gaps == [] then 0
    else Woke(gaps[..|gaps| - 1]) + (if gaps[|gaps| - 1] == R.Slept then 0 else 1)
  }

  /** How often `tx` was woken in the first `k` happenings. */
  function WakesOf(story: seq<Happening>, tx: string, k: nat): nat
    requires k <= |story|
  {
    if k == 0 then 0 else WakesOf(story, tx, k - 1) + (if story[k - 1] == Wake(tx) then 1 else 0)
  }

  /** A wake that can still spare loop `id` a sleep. */
  function Waiting(s: Shop, tx: string, id: nat): nat {
    if tx in s.signals.aborted && !(id in s.stand && s.stand[id] == Roused) then 1 else 0
  }

  /** Loop `id`, once started, reconciles `tx`, and listens for no other. */
  ghost predicate Reconciles(s: Shop, tx: string, id: nat) {
    && (id in s.of ==> s.of[id] == tx) && (id in s.of <==> id in s.stand)
    && forall t :: id in s.signals.Listening(t) ==> t == tx && id in s.of
  }

  lemma WakeSpent(s: Shop, h: Happening, tx: string, id: nat)
    requires Happens(s, h).Some? && Reconciles(s, tx, id) && (h.Start? && h.id == id ==> h.tx == tx)
    ensures Reconciles(Happens(s, h).value, tx, id)
    ensures Woke(GapAt(s, h, id)) + Waiting(Happens(s, h).value, tx, id)
         <= Waiting(s, tx, id) + (if h == Wake(tx) then 1 else 0)
  {
    var s' := Happens(s, h).value;
    assert Woke([R.Skipped]) == Woke([R.Cut]) == 1 && Woke([R.Slept]) == 0 by {
      assert [R.Skipped][..0] == [R.Cut][..0] == [R.Slept][..0] == [];
    }
    match h
    case Start(_, _) =>
    case Wake(t) =>
      assert forall u :: s'.signals.Listening(u) == if u == t then {} else s.signals.Listening(u);
    case Answer(i, _) =>
      assert forall u :: id in s'.signals.Listening(u) ==> id in s.signals.Listening(u) || (i == id && u == s.of[i]);
    case Timer(_) =>
      assert forall u :: id in s'.signals.Listening(u) ==> id in s.signals.Listening(u);
    case Continue(_) =>
      assert forall u :: s'.signals.Listening(u) == s.signals.Listening(u);
  }

  lemma OneMoreGap(gaps: seq<R.Gap>, more: seq<R.Gap>)
    requires |more| <= 1
    ensures Woke(gaps + more) == Woke(gaps) + Woke(more)
  {
    if more == [] {
      assert gaps + more == gaps;
    } else {
      assert (gaps + more)[..|gaps|] == gaps && more[..0] == [];
    }
  }

  /** Whatever happens, however many loops there are: a loop's waits are cut short or skipped at most
      as often as its transaction is woken. */
  lemma {:induction false} EachWakeSparesOneSleep(story: seq<Happening>, states: seq<Shop>, k: nat, tx: string, id: nat)
    requires Unfolds(story, states) && k <= |story|
    requires forall i | 0 <= i < |story| && story[i].Start? && story[i].id == id :: story[i].tx == tx
    ensures Reconciles(states[k], tx, id)
    ensures Woke(GapsOf(story, states, id, k)) + Waiting(states[k], tx, id) <= WakesOf(story, tx, k)
  {
    if k > 0 {
      EachWakeSparesOneSleep(story, states, k - 1, tx, id);
      assert Led(story, states, k - 1);
      WakeSpent(states[k - 1], story[k - 1], tx, id);
      OneMoreGap(GapsOf(story, states, id, k - 1), GapAt(states[k - 1], story[k - 1], id));
    }
  }

  /** A tape whose gaps are the first of these counts no more wake-ups than they do. */
  lemma {:induction false} TapeCountsGaps(tape: seq<R.Turn>, gaps: seq<R.Gap>, n: nat)
    requires n <= |tape| && n <= |gaps| && forall i | 0 <= i < n :: tape[i].gap == gaps[i]
    ensures R.Wakes(tape, n) == Woke(gaps[..n]) <= Woke(gaps)
  {
    if n > 0 {
      TapeCountsGaps(tape, gaps, n - 1);
      assert gaps[..n][..n - 1] == gaps[..n - 1];
    }
    PrefixWakesLess(gaps, n);
  }

  lemma {:induction false} PrefixWakesLess(gaps: seq<R.Gap>, n: nat)
    requires n <= |gaps|
    ensures Woke(gaps[..n]) <= Woke(gaps)
    decreases |gaps|
  {
    if n < |gaps| {
      var last := |gaps| - 1;
      PrefixWakesLess(gaps[..last], n);
      assert gaps[..last][..n] == gaps[..n];
    } else {
      assert gaps[..n] == gaps;
    }
  }

  /** A loop that reconciles `tx` decides within ceil((deadline - start) / pollMs) + 1 polls, and one
      more for every time `tx` is woken, whatever the anchor answers. */
  lemma PollingEndsDespiteWakes(story: seq<Happening>, states: seq<Shop>, tx: string, id: nat,
                                tape: seq<R.Turn>, l: R.Limits, start: int)
    requires Unfolds(story, states)
    requires forall i | 0 <= i < |story| && story[i].Start? && story[i].id == id :: story[i].tx == tx
    requires 0 < |tape| <= |GapsOf(story, states, id, |story|)| + 1
    requires forall i | 0 <= i < |tape| - 1 :: tape[i].gap == GapsOf(story, states, id, |story|)[i]
    requires l.pollMs > 0 && R.Timed(tape, l, start)
    requires |tape| >= R.Enough(l, start) + WakesOf(story, tx, |story|)
    ensures !R.Undecided(tape, l, |tape|)
  {
    EachWakeSparesOneSleep(story, states, |story|, tx, id);
    TapeCountsGaps(tape, GapsOf(story, states, id, |story|), |tape| - 1);
    R.PollingEnds(tape, l, start);
  }

  // ----- One loop per transaction, exactly -----------------------------------------------------------

  /** No further loop is started. */
  predicate StartsNone(story: seq<Happening>, story': seq<Happening>) {
    story <= story' && forall i | |story| <= i < |story'| :: !story'[i].Start?
  }

  /** A loop that was woken sleeps, and has not polled since. */
  ghost predicate Misses(s: Shop, id: nat) {
    id in s.owed && Known(s, id) && s.stand[id] == Asleep
  }

  /** The story goes on, without another loop, to a lost wake-up. */
  ghost predicate LosesAWake(story: seq<Happening>, states: seq<Shop>, story': seq<Happening>, states': seq<Shop>) {
    && Unfolds(story', states') && StartsNone(story, story') && states <= states'
    && exists id :: Misses(states'[|story'|], id)
  }

  /** A running loop comes to a poll of its own, whatever it was doing; others stand where they did. */
  lemma ComesToPoll(story: seq<Happening>, states: seq<Shop>, id: nat)
    returns (story': seq<Happening>, states': seq<Shop>)
    requires Unfolds(story, states) && Running(states[|story|], id)
    ensures Unfolds(story', states') && StartsNone(story, story') && states <= states'
    ensures var s, s' := states[|story|], states'[|story'|];
            && s'.of == s.of && s'.stand == s.stand[id := Polling]
  {
    story', states' := story, states;
    if states[|story|].stand[id] == Asleep {
      story', states' := OneMore(story', states', Timer(id));
    }
    if states'[|story'|].stand[id] == Roused {
      story', states' := OneMore(story', states', Continue(id));
    }
  }

  /** Two running loops on one transaction can always lose a wake-up: the first to poll again uses it
      up, and the other goes to sleep without having polled since. */
  lemma TwoLoopsLoseAWake(story: seq<Happening>, states: seq<Shop>, a: nat, b: nat)
    returns (story': seq<Happening>, states': seq<Shop>)
    requires Unfolds(story, states) && a != b
    requires var s := states[|story|]; Running(s, a) && Running(s, b) && s.of[a] == s.of[b]
    ensures LosesAWake(story, states, story', states')
  {
    var tx := states[|story|].of[a];
    story', states' := ComesToPoll(story, states, a);
    story', states' := ComesToPoll(story', states', b);
    story', states' := OneMore(story', states', Wake(tx));
    story', states' := OneMore(story', states', Answer(a, false));
    story', states' := OneMore(story', states', Answer(b, false));
    assert Misses(states'[|story'|], b);
  }

  /** Without further loops, one loop per transaction stays one. */
  lemma {:induction false} StaysAlone(story: seq<Happening>, states: seq<Shop>, story': seq<Happening>,
                                      states': seq<Shop>, k: nat)
    requires Unfolds(story, states) && Unfolds(story', states') && StartsNone(story, story') && states <= states'
    requires OneLoopEach(states[|story|]) && |story| <= k <= |story'|
    ensures OneLoopEach(states'[k])
  {
    if k > |story| {
      StaysAlone(story, states, story', states', k - 1);
      assert Led(story', states', k - 1);
      NoNewLoops(states'[k - 1], story'[k - 1]);
    }
  }

  lemma NoNewLoops(s: Shop, h: Happening)
    requires Happens(s, h).Some? && !h.Start? && OneLoopEach(s)
    ensures OneLoopEach(Happens(s, h).value)
  {
    var s' := Happens(s, h).value;
    assert s'.of == s.of;
    assert forall id | Running(s', id) :: Running(s, id);
  }

  /** Exactly when a wake-up can be lost, with the loops there are now: when two running loops reconcile
      the same transaction. Until now no two did. */
  lemma WakesAreLostExactly(story: seq<Happening>, states: seq<Shop>)
    requires Unfolds(story, states) && forall k | 0 <= k < |story| :: OneLoopEach(states[k])
    ensures (exists story', states' :: LosesAWake(story, states, story', states')) <==> !OneLoopEach(states[|story|])
  {
    if OneLoopEach(states[|story|]) {
      forall story', states' ensures !LosesAWake(story, states, story', states') {
        if LosesAWake(story, states, story', states') { NeverLost(story, states, story', states'); }
      }
    } else {
      var s := states[|story|];
      var a, b :| Running(s, a) && Running(s, b) && s.of[a] == s.of[b] && a != b;
      var story', states' := TwoLoopsLoseAWake(story, states, a, b);
    }
  }

  lemma NeverLost(story: seq<Happening>, states: seq<Shop>, story': seq<Happening>, states': seq<Shop>)
    requires Unfolds(story, states) && Alone(states) && Unfolds(story', states')
    requires StartsNone(story, story') && states <= states'
    ensures !LosesAWake(story, states, story', states')
  {
    forall k | 0 <= k < |states'| ensures OneLoopEach(states'[k]) {
      if k <= |story| { assert states'[k] == states[k]; }
      else { StaysAlone(story, states, story', states', k); }
    }
    StaysAttentive(story', states', |story'|);
  }
}
