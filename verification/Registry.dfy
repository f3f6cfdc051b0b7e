/**
 * The registry contract (contracts/registry/src/lib.rs): attested facts about anchors, each with
 * its own lifetime in ledgers.
 */
module Registries {
  import opened Prelude
  import opened Domain

  type Address = string
  type Name = seq<Byte>
  type Bits = bv32

  datatype RegistryError =
    | NotAuthorised | Archived                 // what the host answers before the contract's code
    | UnknownBit | PassedExceedsRun | RegistryFull | NotFound
    | TooManyAssets | InvalidAssetCode | DuplicateAsset | InvalidCountry

  const SEP_NUMBERS: seq<nat> := [1, 6, 10, 12, 24, 31, 38]
  const SEP_MASK: Bits := 0x7F
  const PROBE_MASK: Bits := 0x7F
  const SEP31_PROBE := 4   // "sep31_info" in PROBE_NAMES
  const SEP6_PROBE := 5    // "sep6_info"
  const MAX_DOMAINS := 512
  const MAX_RECEIVE_ASSETS := 32
  const MAX_ASSET_CODE_LEN := 32
  const TTL_THRESHOLD: nat := 518_400     // 30 days of ledgers
  const TTL_EXTEND_TO: nat := 1_555_200   // 90 days

  datatype AnchorRecord = AnchorRecord(
    domain: Name, seps: Bits, tomlHash: Name, probesRun: Bits, probesPassed: Bits,
    attestedLedger: nat, attester: Address)

  datatype AnchorMeta = AnchorMeta(
    domain: Name, receiveAssets: seq<Name>, country: Option<Name>, attestedLedger: nat, attester: Address)

  /** Everything the contract stores. `...Until`: the last ledger at which an entry is live;
      `freshTtl` is what the network gives a new entry, and `atThreshold` whether its host extends
      an entry that has exactly the threshold left. */
  datatype Store = Store(
    writer: Address,
    domains: seq<Name>,
    anchors: map<Name, AnchorRecord>,
    metas: map<Name, AnchorMeta>,
    anchorUntil: map<Name, nat>,
    metaUntil: map<Name, nat>,
    instanceUntil: nat,
    freshTtl: nat,
    atThreshold: bool)

  // ----- Lists and bitmaps ------------------------------------------------------------------

  predicate CodeFits(code: Name) {
    0 < |code| <= MAX_ASSET_CODE_LEN
  }

  /** Code `i` is a code, and does not come again. */
  predicate CodeIsGood(assets: seq<Name>, i: nat)
    requires i < |assets|
  {
    CodeFits(assets[i]) && forall j | i < j < |assets| :: assets[j] != assets[i]
  }

  predicate GoodAssets(assets: seq<Name>) {
    |assets| <= MAX_RECEIVE_ASSETS && forall i | 0 <= i < |assets| :: CodeIsGood(assets, i)
  }

  /** What is wrong with a list: the first code that is no code or that comes again. */
  function AssetProblem(assets: seq<Name>): (e: Option<RegistryError>)
    ensures e.None? <==> GoodAssets(assets)
    ensures e.Some? ==> e.value.TooManyAssets? || e.value.InvalidAssetCode? || e.value.DuplicateAsset?
  {
    if |assets| > MAX_RECEIVE_ASSETS then Some(TooManyAssets) else FirstBadCode(assets, 0)
  }

  function FirstBadCode(assets: seq<Name>, i: nat): (e: Option<RegistryError>)
    requires i <= |assets|
    ensures e.None? <==> forall k | i <= k < |assets| :: CodeIsGood(assets, k)
    ensures e.Some? ==> e.value.InvalidAssetCode? || e.value.DuplicateAsset?
    decreases |assets| - i
  {
    assert i < |assets| && !CodeFits(assets[i]) ==> !CodeIsGood(assets, i);
    if i == |assets| then None
    else if !CodeFits(assets[i]) then Some(InvalidAssetCode)
    else if !CodeIsGood(assets, i) then Some(DuplicateAsset)
    else FirstBadCode(assets, i + 1)
  }

  method CheckReceiveAssets(assets: seq<Name>) returns (e: Option<RegistryError>)
    ensures e == AssetProblem(assets)
  {
    if |assets| > MAX_RECEIVE_ASSETS { return Some(TooManyAssets); }
    for i := 0 to |assets|
      invariant FirstBadCode(assets, 0) == FirstBadCode(assets, i)
    {
      if |assets[i]| == 0 || |assets[i]| > MAX_ASSET_CODE_LEN { return Some(InvalidAssetCode); }
      for j := i + 1 to |assets|
        invariant forall k | i < k < j :: assets[k] != assets[i]
      {
        if assets[i] == assets[j] { return Some(DuplicateAsset); }
      }
    }
    e := None;
  }

  predicate GoodCountry(country: Option<Name>) {
    country.Some? ==> |country.value| == 2 && IsUpperAlpha(country.value[0]) && IsUpperAlpha(country.value[1])
  }

  predicate HasBit(b: Bits, i: nat)
    requires i < 7
  {
    b & ((1 as Bits) << i) != 0
  }

  /** `seps_for`: the SEP numbers a bitmap stands for. */
  method SepsFor(seps: Bits) returns (out: seq<nat>)
    ensures out == Decoded(seps, 7)
  {
    out := [];
    for i := 0 to 7
      invariant out == Decoded(seps, i)
    {
      if seps & ((1 as Bits) << i) != 0 { out := out + [SEP_NUMBERS[i]]; }
    }
  }

  function Decoded(seps: Bits, n: nat): seq<nat>
    requires n <= 7
  {
    if n == 0 then []
    else if HasBit(seps, n - 1) then Decoded(seps, n - 1) + [SEP_NUMBERS[n - 1]]
    else Decoded(seps, n - 1)
  }

  /** A number is decoded exactly when its bit is set. */
  lemma {:induction false} DecodedExactly(seps: Bits, n: nat, i: nat)
    requires i < n <= 7
    ensures SEP_NUMBERS[i] in Decoded(seps, n) <==> HasBit(seps, i)
    ensures forall k | n <= k < 7 :: SEP_NUMBERS[k] !in Decoded(seps, n)
  {
    DecodedNumbers(seps, n);
    DecodedNumbers(seps, n - 1);
    if i < n - 1 { DecodedExactly(seps, n - 1, i); }
  }

  lemma {:induction false} DecodedNumbers(seps: Bits, n: nat)
    requires n <= 7
    ensures forall x | x in Decoded(seps, n) :: exists k :: 0 <= k < n && x == SEP_NUMBERS[k]
  {
    if n > 0 { DecodedNumbers(seps, n - 1); }
  }

  /** Decoding loses nothing of a bitmap the contract accepts. */
  lemma DecodingIsFaithful(a: Bits, b: Bits)
    requires KnownBits(a, SEP_MASK) && KnownBits(b, SEP_MASK) && Decoded(a, 7) == Decoded(b, 7)
    ensures a == b
  {
    forall i: nat | i < 7 ensures HasBit(a, i) == HasBit(b, i) {
      DecodedExactly(a, 7, i);
      DecodedExactly(b, 7, i);
    }
    SameBits(a, b);
  }

  lemma SameBits(a: Bits, b: Bits)
    requires KnownBits(a, SEP_MASK) && KnownBits(b, SEP_MASK)
    requires forall i: nat | i < 7 :: HasBit(a, i) == HasBit(b, i)
    ensures a == b
  {
    assert HasBit(a, 0) == HasBit(b, 0) && HasBit(a, 1) == HasBit(b, 1) && HasBit(a, 2) == HasBit(b, 2);
    assert HasBit(a, 3) == HasBit(b, 3) && HasBit(a, 4) == HasBit(b, 4) && HasBit(a, 5) == HasBit(b, 5);
    assert HasBit(a, 6) == HasBit(b, 6);
  }

  // ----- The contract's calls, on its storage as a value ----------------------------------------------

  /** `extend_ttl(TTL_THRESHOLD, TTL_EXTEND_TO)` on an entry live until `until`. Whether a host
      also extends an entry with exactly the threshold left is its own affair. */
  function Extended(until: nat, now: nat, atThreshold: bool): nat {
    if until < now + TTL_THRESHOLD || (atThreshold && until == now + TTL_THRESHOLD) then now + TTL_EXTEND_TO
    else until
  }

  /** The least life an extension leaves an entry. */
  function LeastLeft(atThreshold: bool): nat {
    if atThreshold then TTL_THRESHOLD + 1 else TTL_THRESHOLD
  }

  /** The entries a call touches are live: the host rejects a call that touches an archived one. */
  predicate LiveInstance(s: Store, now: nat) {
    now <= s.instanceUntil
  }

  predicate LiveAnchor(s: Store, d: Name, now: nat) {
    d in s.anchorUntil ==> now <= s.anchorUntil[d]
  }

  predicate LiveMeta(s: Store, d: Name, now: nat) {
    d in s.metaUntil ==> now <= s.metaUntil[d]
  }

  datatype Answer = Answer(store: Store, error: Option<RegistryError>)

  function Refuse(s: Store, e: RegistryError): Answer {
    Answer(s, Some(e))
  }

  function AnchorProblem(s: Store, now: nat, caller: Address, r: AnchorRecord): Option<RegistryError> {
    if !LiveInstance(s, now) || !LiveAnchor(s, r.domain, now) then Some(Archived)
    else if caller != s.writer then Some(NotAuthorised)
    else if !KnownBits(r.seps, SEP_MASK) || !KnownBits(r.probesRun, PROBE_MASK) then Some(UnknownBit)
    else if !KnownBits(r.probesPassed, r.probesRun) then Some(PassedExceedsRun)
    else if r.domain !in s.anchors && |s.domains| >= MAX_DOMAINS then Some(RegistryFull)
    else None
  }

  /** Nothing is set in `bits` that is not set in `mask`. */
  predicate KnownBits(bits: Bits, mask: Bits) {
    bits & !mask == 0
  }

  /** Write a record; its `attestedLedger` is the ledger of the call. */
  function AnchorPut(s: Store, now: nat, caller: Address, r: AnchorRecord): Answer {
    var problem := AnchorProblem(s, now, caller, r);
    if problem.Some? then Refuse(s, problem.value)
    else
      Answer(Recording(s, now, r), None)
  }

  function Recording(s: Store, now: nat, r: AnchorRecord): Store {
    var d := r.domain;
    var until := if d in s.anchorUntil then s.anchorUntil[d] else now + s.freshTtl;
    s.(domains := if d in s.anchors then s.domains else s.domains + [d],
       anchors := s.anchors[d := r.(attestedLedger := now)],
       anchorUntil := s.anchorUntil[d := Extended(until, now, s.atThreshold)],
       instanceUntil := Extended(s.instanceUntil, now, s.atThreshold))
  }

  function MetaProblem(s: Store, now: nat, caller: Address, m: AnchorMeta): Option<RegistryError> {
    if !LiveInstance(s, now) || !LiveAnchor(s, m.domain, now) || !LiveMeta(s, m.domain, now) then Some(Archived)
    else if caller != s.writer then Some(NotAuthorised)
    else if m.domain !in s.anchors then Some(NotFound)
    else if AssetProblem(m.receiveAssets).Some? then AssetProblem(m.receiveAssets)
    else if !GoodCountry(m.country) then Some(InvalidCountry)
    else None
  }

  function MetaPut(s: Store, now: nat, caller: Address, m: AnchorMeta): Answer {
    var d, problem := m.domain, MetaProblem(s, now, caller, m);
    if problem.Some? then Refuse(s, problem.value)
    else
      var until := if d in s.metaUntil then s.metaUntil[d] else now + s.freshTtl;
      Answer(s.(metas := s.metas[d := m.(attestedLedger := now)],
                metaUntil := s.metaUntil[d := Extended(until, now, s.atThreshold)],
                instanceUntil := Extended(s.instanceUntil, now, s.atThreshold)), None)
  }

  function BumpProblem(s: Store, now: nat, d: Name): Option<RegistryError> {
    if !LiveInstance(s, now) || !LiveAnchor(s, d, now) || !LiveMeta(s, d, now) then Some(Archived)
    else if d !in s.anchors then Some(NotFound)
    else None
  }

  function LongerLived(until: map<Name, nat>, d: Name, now: nat, atThreshold: bool): map<Name, nat> {
    if d in until then until[d := Extended(until[d], now, atThreshold)] else until
  }

  /** Anyone may extend the entries of a domain. */
  function Bumped(s: Store, now: nat, d: Name): Answer {
    var problem := BumpProblem(s, now, d);
    if problem.Some? then Refuse(s, problem.value)
    else
      Answer(s.(anchorUntil := LongerLived(s.anchorUntil, d, now, s.atThreshold),
                metaUntil := LongerLived(s.metaUntil, d, now, s.atThreshold),
                instanceUntil := Extended(s.instanceUntil, now, s.atThreshold)), None)
  }

  // ----- The storage always makes sense ------------------------------------------------------------------

  predicate GoodRecord(d: Name, r: AnchorRecord) {
    && r.domain == d && KnownBits(r.seps, SEP_MASK) && KnownBits(r.probesRun, PROBE_MASK)
    && KnownBits(r.probesPassed, r.probesRun)
  }

  predicate GoodMeta(d: Name, m: AnchorMeta) {
    m.domain == d && GoodAssets(m.receiveAssets) && GoodCountry(m.country)
  }

  /** The enumeration list is the set of records, bounded and without repetition. */
  ghost predicate Listed(domains: seq<Name>, anchors: map<Name, AnchorRecord>) {
    && |domains| <= MAX_DOMAINS
    && (forall i, j | 0 <= i < j < |domains| :: domains[i] != domains[j])
    && (forall d :: d in domains <==> d in anchors)
  }

  ghost predicate Recorded(anchors: map<Name, AnchorRecord>) {
    forall d | d in anchors :: GoodRecord(d, anchors[d])
  }

  /** Enumeration and records agree, metadata only stands beside a record, every entry has its
      lifetime, and nothing malformed is stored. */
  ghost predicate Sound(s: Store) {
    && Listed(s.domains, s.anchors) && Recorded(s.anchors)
    && s.metas.Keys <= s.anchors.Keys
    && s.anchorUntil.Keys == s.anchors.Keys && s.metaUntil.Keys == s.metas.Keys
    && (forall d | d in s.metas :: GoodMeta(d, s.metas[d]))
  }

  lemma ListedStays(domains: seq<Name>, anchors: map<Name, AnchorRecord>, d: Name, r: AnchorRecord)
    requires Listed(domains, anchors) && (d in anchors || |domains| < MAX_DOMAINS)
    ensures Listed(if d in anchors then domains else domains + [d], anchors[d := r])
  {
    var domains' := if d in anchors then domains else domains + [d];
    forall i, j | 0 <= i < j < |domains'| ensures domains'[i] != domains'[j] {
      if j == |domains| { assert domains[i] in domains; }
    }
    assert forall e :: e in domains' <==> e in domains || e == d;
  }

  lemma RecordedStays(anchors: map<Name, AnchorRecord>, d: Name, r: AnchorRecord)
    requires Recorded(anchors) && GoodRecord(d, r)
    ensures Recorded(anchors[d := r])
  {
  }

  lemma PutAnchorStaysSound(s: Store, now: nat, caller: Address, r: AnchorRecord)
    requires Sound(s)
    ensures Sound(AnchorPut(s, now, caller, r).store)
  {
    if AnchorProblem(s, now, caller, r).None? {
      ListedStays(s.domains, s.anchors, r.domain, r.(attestedLedger := now));
      RecordedStays(s.anchors, r.domain, r.(attestedLedger := now));
    }
  }

  lemma PutMetaStaysSound(s: Store, now: nat, caller: Address, m: AnchorMeta)
    requires Sound(s)
    ensures Sound(MetaPut(s, now, caller, m).store)
  {
  }

  /** A bump changes no fact, only lifetimes. */
  lemma BumpChangesNoFact(s: Store, now: nat, d: Name)
    ensures var s' := Bumped(s, now, d).store;
            && s'.domains == s.domains && s'.anchors == s.anchors && s'.metas == s.metas && s'.writer == s.writer
    ensures Sound(s) ==> Sound(Bumped(s, now, d).store)
  {
  }

  /** No stored list is too long or names an asset twice. */
  lemma StoredAssetsAreDistinct(s: Store, d: Name)
    requires Sound(s) && d in s.metas
    ensures var assets := s.metas[d].receiveAssets;
            && |assets| <= MAX_RECEIVE_ASSETS
            && forall i, j | 0 <= i < j < |assets| :: assets[i] != assets[j]
  {
    assert GoodMeta(d, s.metas[d]);
    var assets := s.metas[d].receiveAssets;
    forall i, j | 0 <= i < j < |assets| ensures assets[i] != assets[j] {
      assert CodeIsGood(assets, i);
    }
  }

  /** A probe only counts as passed if it was run. */
  lemma PassedWasRun(s: Store, d: Name, i: nat)
    requires Sound(s) && d in s.anchors && i < 7 && HasBit(s.anchors[d].probesPassed, i)
    ensures HasBit(s.anchors[d].probesRun, i)
  {
    var r := s.anchors[d];
    assert GoodRecord(d, r);
    PassedBits(r.probesPassed, r.probesRun, i);
  }

  lemma PassedBits(passed: Bits, run: Bits, i: nat)
    requires KnownBits(passed, run) && i < 7 && HasBit(passed, i)
    ensures HasBit(run, i)
  {
    var bit := (1 as Bits) << i;
    assert passed & bit != 0;
    assert (run & bit == 0) ==> passed & bit == passed & !run & bit by {
      if run & bit == 0 { Masked(passed, run, bit); }
    }
  }

  lemma Masked(passed: Bits, run: Bits, bit: Bits)
    requires run & bit == 0
    ensures passed & bit == passed & !run & bit
  {
  }

  // ----- Lifetimes -----------------------------------------------------------------------------------------

  /** Extending never shortens a life, and leaves at least the threshold: the least it can leave. */
  lemma ExtendingLengthens(until: nat, now: nat, atThreshold: bool)
    ensures Extended(until, now, atThreshold) >= until
    ensures Extended(until, now, atThreshold) >= now + LeastLeft(atThreshold) >= now + TTL_THRESHOLD
    ensures Extended(now + LeastLeft(atThreshold), now, atThreshold) == now + LeastLeft(atThreshold)
  {
  }

  /** What an accepted call does to lifetimes: its own entry and the instance are extended, and
      nothing else changes. */
  lemma PutAnchorExtends(s: Store, now: nat, caller: Address, r: AnchorRecord)
    requires AnchorProblem(s, now, caller, r).None?
    ensures var s', d := AnchorPut(s, now, caller, r).store, r.domain;
            && s'.metaUntil == s.metaUntil && d in s'.anchorUntil
            && s'.anchorUntil == s.anchorUntil[d := s'.anchorUntil[d]]
            && s'.anchorUntil[d] >= now + LeastLeft(s.atThreshold)
            && (d in s.anchorUntil ==> s'.anchorUntil[d] >= s.anchorUntil[d])
            && s'.instanceUntil >= s.instanceUntil && s'.instanceUntil >= now + LeastLeft(s.atThreshold)
  {
  }

  lemma PutMetaExtends(s: Store, now: nat, caller: Address, m: AnchorMeta)
    requires MetaProblem(s, now, caller, m).None?
    ensures var s', d := MetaPut(s, now, caller, m).store, m.domain;
            && s'.anchorUntil == s.anchorUntil && d in s'.metaUntil
            && s'.metaUntil == s.metaUntil[d := s'.metaUntil[d]]
            && s'.metaUntil[d] >= now + LeastLeft(s.atThreshold)
            && (d in s.metaUntil ==> s'.metaUntil[d] >= s.metaUntil[d])
            && s'.instanceUntil >= s.instanceUntil && s'.instanceUntil >= now + LeastLeft(s.atThreshold)
  {
  }

  // ----- The contract ----------------------------------------------------------------------------------

  class Registry {
    const writer: Address    // the attester contract
    const freshTtl: nat
    const atThreshold: bool  // the host extends at exactly the threshold too
    var domains: seq<Name>
    var anchors: map<Name, AnchorRecord>
    var metas: map<Name, AnchorMeta>
    var anchorUntil: map<Name, nat>
    var metaUntil: map<Name, nat>
    var instanceUntil: nat

    function Contents(): Store
      reads this
    {
      Store(writer, domains, anchors, metas, anchorUntil, metaUntil, instanceUntil, freshTtl, atThreshold)
    }

    constructor (writer: Address, freshTtl: nat, atThreshold: bool, now: nat)
      ensures Sound(Contents()) && domains == [] && this.writer == writer
      ensures instanceUntil >= now + TTL_THRESHOLD
    {
      this.writer, this.freshTtl, this.atThreshold := writer, freshTtl, atThreshold;
      domains, anchors, metas, anchorUntil, metaUntil := [], map[], map[], map[], map[];
      instanceUntil := Extended(now + freshTtl, now, atThreshold);
    }

    method ExtendInstance(now: nat)
      modifies this`instanceUntil
      ensures instanceUntil == Extended(old(instanceUntil), now, atThreshold)
    {
      instanceUntil := Extended(instanceUntil, now, atThreshold);
    }

    method PutAnchor(now: nat, caller: Address, domain: Name, seps: Bits, tomlHash: Name, probesRun: Bits,
                     probesPassed: Bits, attester: Address) returns (e: Option<RegistryError>)
      modifies this
      ensures var r := AnchorRecord(domain, seps, tomlHash, probesRun, probesPassed, now, attester);
              Answer(Contents(), e) == AnchorPut(old(Contents()), now, caller, r)
      // Accepted exactly from the writer, on live entries, with no bit out of place and room for the domain.
      ensures e.None? <==>
                && caller == writer && now <= old(instanceUntil)
                && (domain in old(anchorUntil) ==> now <= old(anchorUntil)[domain])
                && seps & !0x7F == 0 && probesRun & !0x7F == 0 && probesPassed & !probesRun == 0
                && (domain in old(anchors) || |old(domains)| < 512)
      // What is stored is what the call says, and nothing else that is stored changes.
      ensures e.None? ==>
                && anchors == old(anchors)[domain := AnchorRecord(domain, seps, tomlHash, probesRun, probesPassed,
                                                                  now, attester)]
                && domains == old(domains) + (if domain in old(anchors) then [] else [domain])
                && metas == old(metas)
      ensures e.Some? ==> Contents() == old(Contents())
    {
      if now > instanceUntil { return Some(Archived); }
      if domain in anchorUntil && now > anchorUntil[domain] { return Some(Archived); }
      if caller != writer { return Some(NotAuthorised); }
      if !KnownBits(seps, SEP_MASK) || !KnownBits(probesRun, PROBE_MASK) { return Some(UnknownBit); }
      if !KnownBits(probesPassed, probesRun) { return Some(PassedExceedsRun); }
      if domain !in anchors && |domains| >= MAX_DOMAINS { return Some(RegistryFull); }
      Record(now, AnchorRecord(domain, seps, tomlHash, probesRun, probesPassed, now, attester));
      e := None;
    }

    /** List the domain if it is new, and write its record. */
    method Record(now: nat, r: AnchorRecord)
      requires r.attestedLedger == now
      modifies this
      ensures Contents() == Recording(old(Contents()), now, r)
    {
      if r.domain !in anchors { domains := domains + [r.domain]; }
      anchors := anchors[r.domain := r];
      var until := if r.domain in anchorUntil then anchorUntil[r.domain] else now + freshTtl;
      anchorUntil := anchorUntil[r.domain := Extended(until, now, atThreshold)];
      ExtendInstance(now);
    }

    method PutMeta(now: nat, caller: Address, domain: Name, receiveAssets: seq<Name>, country: Option<Name>,
                   attester: Address) returns (e: Option<RegistryError>)
      modifies this
      ensures var m := AnchorMeta(domain, receiveAssets, country, now, attester);
              Answer(Contents(), e) == MetaPut(old(Contents()), now, caller, m)
      // Accepted exactly from the writer, on live entries, beside a record, with a list and a country in order.
      ensures e.None? <==>
                && caller == writer && now <= old(instanceUntil) && domain in old(anchors)
                && (domain in old(anchorUntil) ==> now <= old(anchorUntil)[domain])
                && (domain in old(metaUntil) ==> now <= old(metaUntil)[domain])
                && GoodAssets(receiveAssets) && GoodCountry(country)
      // What is stored is what the call says, and nothing else that is stored changes.
      ensures e.None? ==>
                && metas == old(metas)[domain := AnchorMeta(domain, receiveAssets, country, now, attester)]
                && anchors == old(anchors) && domains == old(domains)
      ensures e.Some? ==> Contents() == old(Contents())
    {
      if now > instanceUntil { return Some(Archived); }
      if domain in anchorUntil && now > anchorUntil[domain] { return Some(Archived); }
      if domain in metaUntil && now > metaUntil[domain] { return Some(Archived); }
      if caller != writer { return Some(NotAuthorised); }
      if domain !in anchors { return Some(NotFound); }
      e := CheckReceiveAssets(receiveAssets);
      if e.Some? { return; }
      if !GoodCountry(country) { return Some(InvalidCountry); }
      metas := metas[domain := AnchorMeta(domain, receiveAssets, country, now, attester)];
      var until := if domain in metaUntil then metaUntil[domain] else now + freshTtl;
      metaUntil := metaUntil[domain := Extended(until, now, atThreshold)];
      ExtendInstance(now);
    }

    method Bump(now: nat, domain: Name) returns (e: Option<RegistryError>)
      modifies this
      ensures Answer(Contents(), e) == Bumped(old(Contents()), now, domain)
      ensures e.None? <==>
                && now <= old(instanceUntil) && domain in old(anchors)
                && (domain in old(anchorUntil) ==> now <= old(anchorUntil)[domain])
                && (domain in old(metaUntil) ==> now <= old(metaUntil)[domain])
      ensures anchors == old(anchors) && metas == old(metas) && domains == old(domains)
      ensures e.Some? ==> Contents() == old(Contents())
    {
      if now > instanceUntil { return Some(Archived); }
      if domain in anchorUntil && now > anchorUntil[domain] { return Some(Archived); }
      if domain in metaUntil && now > metaUntil[domain] { return Some(Archived); }
      if domain !in anchors { return Some(NotFound); }
      if domain in anchorUntil {
        anchorUntil := anchorUntil[domain := Extended(anchorUntil[domain], now, atThreshold)];
      }
      if domain in metaUntil {
        metaUntil := metaUntil[domain := Extended(metaUntil[domain], now, atThreshold)];
      }
      ExtendInstance(now);
      e := None;
    }

    /** How old a record is; a clock behind its ledger reads as zero. */
    method Staleness(now: nat, domain: Name) returns (age: Option<nat>)
      ensures age.Some? <==> domain in anchors
      ensures age.Some? ==> age.value == if anchors[domain].attestedLedger <= now
                                         then now - anchors[domain].attestedLedger else 0
    {
      if domain !in anchors { return None; }
      var at := anchors[domain].attestedLedger;
      age := Some(if at <= now then now - at else 0);
    }

    /** Whether a domain advertises a SEP and passed the probe for it. */
    method Serves(domain: Name, sep: nat) returns (yes: Option<bool>)
      ensures yes.Some? <==> domain in anchors
      ensures yes == Some(true) <==>
                && domain in anchors && sep in Decoded(anchors[domain].seps, 7)
                && ((sep == 31 && HasBit(anchors[domain].probesPassed, SEP31_PROBE))
                    || (sep == 6 && HasBit(anchors[domain].probesPassed, SEP6_PROBE)))
    {
      if domain !in anchors { return None; }
      var r := anchors[domain];
      DecodedExactly(r.seps, 7, 1);
      DecodedExactly(r.seps, 7, 5);
      if sep == 31 {
        yes := Some(HasBit(r.seps, 5) && HasBit(r.probesPassed, SEP31_PROBE));
      } else if sep == 6 {
        yes := Some(HasBit(r.seps, 1) && HasBit(r.probesPassed, SEP6_PROBE));
      } else {
        yes := Some(false);
      }
    }
  }
}
