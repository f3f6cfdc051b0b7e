/**
 * The two idempotency stores: the in-memory one (packages/engine/src/idempotency.ts) and
 * the SQL one (packages/engine/src/idempotency-pg.ts), whose statements are atomic steps
 * on one row.
 */
module Stores {
  import opened Prelude
  import opened States
  import opened Runs

  datatype StoreKind = InMemory | Postgres

  // ----- One row -------------------------------------------------------------------

  /** What the in-memory store keeps after `put`: no version guard. */
  function MemoryPut(prior: Option<Run>, run: Run): Run {
    run.(sourceTransactionId :=
           if prior.Some? then Coalesce(prior.value.sourceTransactionId, run.sourceTransactionId)
           else run.sourceTransactionId)
  }

  /** The upsert's `do update set ... where version <` on an existing row. */
  function PgMerge(row: Run, run: Run): Run {
    if row.version >= run.version then row
    else
      run.(key := row.key,
           corridorId := row.corridorId,
           owner := row.owner,
           manifestHash := Coalesce(row.manifestHash, run.manifestHash),
           sourceTransactionId := Coalesce(row.sourceTransactionId, run.sourceTransactionId),
           settlementKind := Coalesce(run.settlementKind, row.settlementKind),
           settlementRef := Coalesce(run.settlementRef, row.settlementRef),
           refundId := Coalesce(row.refundId, run.refundId),
           settlement := Coalesce(row.settlement, run.settlement))
  }

  function PgPut(prior: Option<Run>, run: Run): Run {
    if prior.Some? then PgMerge(prior.value, run) else run
  }

  /** `toRun`: decode a row, filling in the settlement of rows older than its columns. */
  function ToRun(row: Run): Run {
    var ref := if row.settlementRef.Some? then row.settlementRef
               else if Given(row.stellarTxHash) then Some(Stellar(row.stellarTxHash.value))
               else None;
    var kind := if row.settlementKind.Some? then row.settlementKind
                else if ref.Some? then Some(KindOf(ref.value))
                else None;
    row.(settlementRef := ref, settlementKind := kind)
  }

  function Put(kind: StoreKind, prior: Option<Run>, run: Run): Run {
    match kind
    case InMemory => MemoryPut(prior, run)
    case Postgres => PgPut(prior, run)
  }

  function Load(kind: StoreKind, row: Run): Run {
    match kind
    case InMemory => row
    case Postgres => ToRun(row)
  }

  /** Decoding gives back what was written exactly when a row that has a settlement reference
      has its kind, and a row without one has no transaction hash either. */
  lemma DecodingIsExact(run: Run)
    ensures ToRun(run) == run <==>
            && (run.settlementRef.Some? ==> run.settlementKind.Some?)
            && (run.settlementRef.None? ==> !Given(run.stellarTxHash))
  {
  }

  // ----- Any number of writers on one SQL row ------------------------------------------

  ghost function AfterPuts(row: Run, writes: seq<Run>): Run
    decreases |writes|
  {
    if writes == [] then row else AfterPuts(PgMerge(row, writes[0]), writes[1..])
  }

  /** `prior`, once set, is what `now` still says. */
  predicate KeptOnceSet<T(==)>(prior: Option<T>, now: Option<T>) {
    prior.Some? ==> now == prior
  }

  /** A later state of the same row: no older, and with nothing erased that is evidence. */
  predicate Matures(row: Run, now: Run) {
    && row.version <= now.version && (now.version == row.version ==> now == row)
    && now.key == row.key && now.corridorId == row.corridorId && now.owner == row.owner
    && KeptOnceSet(row.refundId, now.refundId)
    && KeptOnceSet(row.sourceTransactionId, now.sourceTransactionId)
    && KeptOnceSet(row.manifestHash, now.manifestHash)
    && KeptOnceSet(row.settlement, now.settlement)
    && (row.settlementRef.Some? ==> now.settlementRef.Some?)
  }

  /** Whatever is written, by whomever, in whatever order: the version only rises, and the
      fields that are evidence never change once set. */
  lemma {:induction false} NothingErasesEvidence(row: Run, writes: seq<Run>)
    ensures Matures(row, AfterPuts(row, writes))
    decreases |writes|
  {
    if writes != [] {
      NothingErasesEvidence(PgMerge(row, writes[0]), writes[1..]);
    }
  }

  /** The stored row is always one that a writer wrote last with the highest version so far:
      a put with a version no higher than the row's changes nothing at all. */
  lemma {:induction false} StaleWritersAreIgnored(row: Run, writes: seq<Run>)
    requires forall i | 0 <= i < |writes| :: writes[i].version <= row.version
    ensures AfterPuts(row, writes) == row
  {
    if writes != [] {
      assert writes[0].version <= row.version;
      StaleWritersAreIgnored(row, writes[1..]);
    }
  }

  // ----- One writer: both stores hold the same run ---------------------------------------

  /** A later snapshot of the same run: higher version, no evidence dropped. */
  predicate Follows(prior: Run, new': Run) {
    && prior.version < new'.version
    && new'.key == prior.key && new'.corridorId == prior.corridorId && new'.owner == prior.owner
    && KeptOnceSet(prior.manifestHash, new'.manifestHash)
    && KeptOnceSet(prior.sourceTransactionId, new'.sourceTransactionId)
    && KeptOnceSet(prior.refundId, new'.refundId)
    && KeptOnceSet(prior.settlement, new'.settlement)
    && (prior.settlementRef.Some? ==> new'.settlementRef.Some?)
    && (prior.settlementKind.Some? ==> new'.settlementKind.Some?)
    && SettlementAgrees(new')
  }

  ghost predicate OneWriter(row: Run, writes: seq<Run>)
    decreases |writes|
  {
    writes != [] ==> Follows(row, writes[0]) && OneWriter(writes[0], writes[1..])
  }

  ghost function AfterMemoryPuts(row: Run, writes: seq<Run>): Run
    decreases |writes|
  {
    if writes == [] then row else AfterMemoryPuts(MemoryPut(Some(row), writes[0]), writes[1..])
  }

  /** On the history one worker writes the two stores return equal rows: the last one written. */
  lemma {:induction false} StoresAgreeOnOneWriter(row: Run, writes: seq<Run>)
    requires SettlementAgrees(row) && OneWriter(row, writes)
    ensures var last := if writes == [] then row else writes[|writes| - 1];
            && AfterMemoryPuts(row, writes) == last
            && ToRun(AfterPuts(row, writes)) == last
    decreases |writes|
  {
    if writes == [] {
      DecodingIsExact(row);
    } else {
      StoresAgreeOnOneWriter(writes[0], writes[1..]);
    }
  }

  /** One step of the lemma above, for either store. */
  lemma OneWriterPut(kind: StoreKind, row: Run, run: Run)
    requires Follows(row, run)
    ensures Put(kind, Some(row), run) == run && Load(kind, run) == run
  {
    DecodingIsExact(run);
  }

  /** Two workers are another matter: the in-memory store lets a stale snapshot win. */
  lemma MemoryHasNoGuard(row: Run)
    requires row.version > 0
    ensures var stale := row.(state := Held, version := 0);
            MemoryPut(Some(row), stale).version < row.version && PgMerge(row, stale) == row
  {
  }

  // ----- Resolutions -----------------------------------------------------------------------

  datatype Outcome = RefundedOffchain | PaidOutManually | WrittenOff
  datatype Resolution = Resolution(key: string, outcome: Outcome, note: string, resolvedBy: string, resolvedAt: int)

  class Store {
    const kind: StoreKind
    var rows: map<string, Run>
    var resolutions: map<string, Resolution>

    constructor (kind: StoreKind)
      ensures this.kind == kind && rows == map[] && resolutions == map[]
    {
      this.kind := kind;
      rows, resolutions := map[], map[];
    }

    function Row(key: string): Option<Run>
      reads this
    {
      if key in rows then Some(rows[key]) else None
    }

    method Get(key: string) returns (run: Option<Run>)
      ensures run.Some? <==> key in rows
      ensures run.Some? ==> run.value == Load(kind, rows[key])
      // A row from before the settlement columns names its transaction as the settlement.
      ensures run.Some? ==>
                var row := rows[key];
                && run.value.settlementRef == (
                     if kind == Postgres && row.settlementRef.None? && row.stellarTxHash.Some?
                        && row.stellarTxHash.value != "" then Some(Stellar(row.stellarTxHash.value))
                     else row.settlementRef)
                && run.value.settlementKind == (
                     if kind == InMemory || row.settlementKind.Some? || run.value.settlementRef.None? then
                       row.settlementKind
                     else if run.value.settlementRef.value.Stellar? then Some(OnStellar) else Some(OffChain))
                && run.value == row.(settlementRef := run.value.settlementRef,
                                     settlementKind := run.value.settlementKind)
    {
      run := if key in rows then Some(Load(kind, rows[key])) else None;
    }

    /** Atomic claim: the first caller for a key wins and only its run is stored. */
    method Create(run: Run) returns (won: bool)
      modifies this`rows
      ensures won <==> run.key !in old(rows)
      ensures rows == if won then old(rows)[run.key := run] else old(rows)
    {
      won := run.key !in rows;
      if won { rows := rows[run.key := run]; }
    }

    /** In SQL a stale write is ignored and a newer one erases no evidence; in memory the last
        write wins, except that a source deposit once stored stays. Other keys are not touched. */
    method PutRun(run: Run)
      modifies this`rows
      ensures run.key in rows && rows - {run.key} == old(rows) - {run.key}
      ensures run.key !in old(rows) ==> rows[run.key] == run
      ensures run.key in old(rows) ==>
                var prior, now := old(rows)[run.key], rows[run.key];
                && now == Put(kind, Some(prior), run)
                && KeptOnceSet(prior.sourceTransactionId, now.sourceTransactionId)
                && (kind == Postgres ==>
                      Matures(prior, now) && (if run.version <= prior.version then rows == old(rows)
                                              else now.version == run.version && now.state == run.state))
                && (kind == InMemory ==> now.version == run.version && now.state == run.state)
      // Column by column: whose value is kept where both have one, and whose where one has none.
      ensures run.key in old(rows) && (kind == InMemory || old(rows)[run.key].version < run.version) ==>
                var prior, now := old(rows)[run.key], rows[run.key];
                && (prior.sourceTransactionId.Some? ==> now.sourceTransactionId == prior.sourceTransactionId)
                && (prior.sourceTransactionId.None? ==> now.sourceTransactionId == run.sourceTransactionId)
                && (kind == InMemory ==> now == run.(sourceTransactionId := now.sourceTransactionId))
                && (kind == Postgres ==>
                      && now.settlementRef == (if run.settlementRef.Some? then run.settlementRef
                                               else prior.settlementRef)
                      && now.settlementKind == (if run.settlementKind.Some? then run.settlementKind
                                                else prior.settlementKind)
                      && now.manifestHash == (if prior.manifestHash.Some? then prior.manifestHash else run.manifestHash)
                      && now.refundId == (if prior.refundId.Some? then prior.refundId else run.refundId)
                      && now.settlement == (if prior.settlement.Some? then prior.settlement else run.settlement)
                      && now == run.(key := prior.key, corridorId := prior.corridorId, owner := prior.owner,
                                     manifestHash := now.manifestHash, refundId := now.refundId,
                                     sourceTransactionId := now.sourceTransactionId,
                                     settlementRef := now.settlementRef, settlementKind := now.settlementKind,
                                     settlement := now.settlement))
    {
      if run.key !in rows {
        rows := rows[run.key := run];
        return;
      }
      var prior := rows[run.key];
      match kind
      case InMemory =>
        var deposit := Coalesce(prior.sourceTransactionId, run.sourceTransactionId);
        rows := rows[run.key := run.(sourceTransactionId := deposit)];
      case Postgres =>
        if prior.version < run.version { rows := rows[run.key := PgMerge(prior, run)]; }
    }

    /** Only a held run can be resolved out of band, and only once. */
    method RecordResolution(r: Resolution) returns (recorded: bool)
      modifies this`resolutions
      ensures recorded <==>
              r.key !in old(resolutions) && r.key in rows && rows[r.key].state == Held
      ensures resolutions == if recorded then old(resolutions)[r.key := r] else old(resolutions)
    {
      recorded := r.key !in resolutions && r.key in rows && rows[r.key].state == Held;
      if recorded { resolutions := resolutions[r.key := r]; }
    }
  }
}
