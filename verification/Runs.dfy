/**
 * What the engine keeps about one payment (packages/engine/src/idempotency.ts) and the
 * parts of a corridor manifest it reads. Amounts are in stroops.
 */
module Runs {
  import opened Prelude
  import opened States
  import opened Canonical

  // ----- Errors ----------------------------------------------------------------

  datatype Code =
    | ManifestInvalid | ManifestChanged | CapabilityMismatch | AmountInvalid | EngineMisconfigured
    | QuoteUnavailable | QuoteExpired | KycRequired | KycRejected | AnchorUnavailable
    | SettlementFailed | SettlementTimeout | RefundUnsupported | ReconcileMismatch | ReconcileStalled
    | IdempotencyConflict | PresettleAnchorDrift | PresettleTxMismatch | PresettleDestinationUnsafe
    | PresettleInsufficientFunds | PresettleQuoteWindow | PresettleAmountOutOfRange
    | PresettleReceiverNotAccepted | CorridorUnproven | CorridorHalted | DryRunComplete | RouteRefused

  /** `anchorTerminal`: the error carries an anchor status that is a terminal failure. */
  datatype Error = Error(code: Code, message: string, retryable: bool, anchorTerminal: bool)

  function Fail(code: Code, message: string): Error {
    Error(code, message, false, false)
  }

  // ----- Corridors ---------------------------------------------------------------

  datatype Rollback = RefundSender | Hold | Manual

  /** The state a run ends in when it fails with nothing settled, by its rollback policy. */
  function EndOf(rollback: Rollback): State {
    match rollback
    case RefundSender => Refunded
    case Hold => Held
    case Manual => Failed
  }

  datatype QuoteSource = Sep38 | Native | External

  /** The validated settings the engine reads off a manifest. */
  datatype Settings = Settings(
    id: string,
    asset: string,
    issuer: string,
    receiveAsset: Option<string>,
    receiveIssuer: string,
    publicNetwork: bool,
    prefunded: bool,
    quoteSource: QuoteSource,
    receiverHoldsRisk: bool,
    minAmount: Option<int>,
    maxAmount: Option<int>,
    canaryMaxAmount: Option<int>,
    rollback: Rollback,
    maxRetries: nat,
    breakerThreshold: nat)

  datatype Corridor = Corridor(manifest: Json, settings: Settings)

  /** Schema validation is some function of the manifest read as a map. */
  type Schema = View -> Settings

  ghost predicate Parsed(schema: Schema, c: Corridor) {
    && WellFormed(c.manifest) && c.manifest != Undefined
    && c.settings == schema(ViewOf(c.manifest))
  }

  /** `hashCorridor`, with the digest standing for the text it digests. */
  ghost function HashOf(c: Corridor): Text {
    Print(ViewOf(c.manifest))
  }

  method HashCorridor(c: Corridor) returns (h: Text)
    requires WellFormed(c.manifest) && c.manifest != Undefined
    ensures h == HashOf(c)
  {
    var t := CanonicalJson(c.manifest);
    h := t.value;
  }

  /** An unchanged hash means unchanged settings. */
  lemma SameHashSameSettings(schema: Schema, a: Corridor, b: Corridor)
    requires Parsed(schema, a) && Parsed(schema, b) && HashOf(a) == HashOf(b)
    ensures a.settings == b.settings
  {
    SameTextIffSameManifest(a.manifest, b.manifest);
  }

  // ----- Runs ------------------------------------------------------------------------

  datatype MemoType = MemoText | MemoHash | MemoId

  datatype Ref = Stellar(txHash: string) | Adapter(reference: string)
  datatype Kind = OnStellar | OffChain

  function KindOf(ref: Ref): Kind {
    match ref
    case Stellar(_) => OnStellar
    case Adapter(_) => OffChain
  }

  /** What a settlement is asked to pay; the corridor and quote deadline travel beside it. */
  datatype Request = Request(
    to: string, memo: Option<string>, memoType: Option<MemoType>, asset: string, amount: int)

  datatype Run = Run(
    key: string,
    corridorId: string,
    manifestHash: Option<Text>,
    state: State,
    version: nat,
    transactionId: Option<string>,
    sourceTransactionId: Option<string>,
    quoteId: Option<string>,
    quoteExpiresAt: Option<int>,
    quoteFirm: Option<bool>,
    settlementAmount: Option<int>,
    stellarTxHash: Option<string>,
    settlementKind: Option<Kind>,
    settlementRef: Option<Ref>,
    depositAddress: Option<string>,
    memo: Option<string>,
    memoType: Option<MemoType>,
    refundId: Option<string>,
    settlement: Option<Request>,
    lastError: Option<string>,
    owner: Option<string>)

  function NewRun(key: string, corridorId: string, hash: Text, owner: Option<string>): Run {
    Run(key, corridorId, Some(hash), Created, 0, None, None, None, None, None, None, None, None, None,
        None, None, None, None, None, None, owner)
  }

  predicate Given(s: Option<string>) {
    s.Some? && s.value != ""
  }

  predicate HasRequestedRefund(run: Run) {
    Given(run.refundId)
  }

  predicate HasSettlementRef(run: Run) {
    run.settlementRef.Some? || Given(run.stellarTxHash)
  }

  /** The request a run settles: what a fresh pass builds from the opened transaction and quote,
      and what a resumed run rebuilds from its row. */
  function RequestOf(run: Run, s: Settings): Request {
    Request(if run.depositAddress.Some? then run.depositAddress.value else "",
            run.memo, run.memoType, s.asset,
            if run.settlementAmount.Some? then run.settlementAmount.value else 0)
  }

  /** A request for what this row says is owed, in this asset. */
  predicate Asks(req: Request, run: Run, asset: string) {
    && (run.depositAddress == Some(req.to) || (run.depositAddress.None? && req.to == ""))
    && req.memo == run.memo && req.memoType == run.memoType
    && req.asset == asset && run.settlementAmount == Some(req.amount)
  }

  /** The next stored version of a run. */
  function Step(run: Run, to: State): Run {
    run.(state := to, version := run.version + 1)
  }

  function RecordSettlement(run: Run, req: Request, ref: Ref): Run {
    run.(settlementKind := Some(KindOf(ref)),
         settlementRef := Some(ref),
         stellarTxHash := if ref.Stellar? then Some(ref.txHash) else run.stellarTxHash,
         settlement := Some(req))
  }

  /** The settlement columns of a row this engine wrote agree with each other. */
  predicate SettlementAgrees(run: Run) {
    if run.settlementRef.None? then run.stellarTxHash.None? && run.settlementKind.None?
    else run.settlementKind == Some(KindOf(run.settlementRef.value))
  }

  // ----- Quotes ----------------------------------------------------------------------

  datatype Quote = Quote(id: string, expiresAt: int, firm: bool, asset: string, amount: int)

  function UpperChar(c: char): char {
    if 'a' <= c <= 'z' then 'A' + (c - 'a') else c
  }

  /** `code.toUpperCase() === "XLM"`, for the ASCII codes assets have. */
  predicate IsXlm(code: string): (b: bool)
    ensures b <==> code in {"XLM", "XLm", "XlM", "Xlm", "xLM", "xLm", "xlM", "xlm"}
  {
    assert |code| == 3 ==> code == [code[0], code[1], code[2]];
    |code| == 3 && UpperChar(code[0]) == 'X' && UpperChar(code[1]) == 'L' && UpperChar(code[2]) == 'M'
  }

  /** `settleQuoteProblem` as a yes or no: the quote must not be settled as it is. Fine is a positive
      amount of the corridor's settle asset, in one of the spellings it has. */
  predicate SettleQuoteProblem(q: Quote, s: Settings): (b: bool)
    ensures !b <==>
              && q.amount > 0
              && (q.asset in {s.asset, "stellar:" + s.asset + ":" + s.issuer}
                  || (IsXlm(s.asset) && q.asset in {"native", "stellar:native"}))
  {
    var match' :=
      || q.asset == s.asset
      || q.asset == "stellar:" + s.asset + ":" + s.issuer
      || (IsXlm(s.asset) && (q.asset == "native" || q.asset == "stellar:native"));
    !match' || q.amount <= 0
  }

  predicate NeedsPathPayment(s: Settings): (b: bool)
    ensures !b <==>
              || s.receiveAsset.None?
              || (IsXlm(s.asset) && IsXlm(s.receiveAsset.value))
              || (!IsXlm(s.asset) && s.receiveAsset == Some(s.asset) && s.receiveIssuer == s.issuer)
  {
    if s.receiveAsset.None? then false
    else if IsXlm(s.asset) || IsXlm(s.receiveAsset.value) then IsXlm(s.asset) != IsXlm(s.receiveAsset.value)
    else s.receiveAsset.value != s.asset || s.receiveIssuer != s.issuer
  }

  // ----- Retry pacing ---------------------------------------------------------------------

  function Power2(n: nat): nat {
    if n == 0 then 1 else 2 * Power2(n - 1)
  }

  /** `backoffMs` with its defaults: 250 ms doubled per attempt, at most 5 s. */
  function BackoffMs(attempt: nat): (ms: nat)
    ensures ms <= 5000
    ensures attempt <= 1 ==> ms == 250
    ensures attempt == 2 ==> ms == 500
    ensures attempt == 3 ==> ms == 1000
    ensures attempt == 4 ==> ms == 2000
    ensures attempt == 5 ==> ms == 4000
    ensures attempt >= 6 ==> ms == 5000
  {
    var exp := 250 * Power2(if attempt == 0 then 0 else attempt - 1);
    BackoffGrows(attempt);
    assert Power2(4) == 2 * Power2(3) == 4 * Power2(2) == 8 * Power2(1) == 16 * Power2(0);
    if exp < 5000 then exp else 5000
  }

  lemma {:induction false} BackoffGrows(attempt: nat)
    ensures attempt >= 6 ==> Power2(attempt - 1) >= 32
    decreases attempt
  {
    if attempt == 6 {
      assert Power2(5) == 2 * Power2(4) == 4 * Power2(3) == 8 * Power2(2) == 16 * Power2(1);
    } else if attempt > 6 {
      BackoffGrows(attempt - 1);
    }
  }
}
