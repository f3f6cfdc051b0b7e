/**
 * The attester contract (contracts/attester/src/lib.rs): who may write to the registry and how
 * often. The two contracts together, over every sequence of calls.
 */
module Attesters {
  import opened Prelude
  import opened Domain
  import opened Registries

  datatype Failure =
    | NotAnAttester | InvalidDomain | TooSoon
    | BadMeta(e: RegistryError)        // refused before the registry is asked
    | Relayed(e: RegistryError)        // the registry refused, and the whole call is undone

  /** Everything the contract stores. */
  datatype Policy = Policy(
    self: Address,
    members: map<Address, bool>,
    minInterval: nat,
    lastAttest: map<Name, nat>,
    lastMeta: map<Name, nat>)

  datatype Both = Both(att: Policy, reg: Store)

  datatype Outcome = Outcome(both: Both, failure: Option<Failure>)

  function IsMember(att: Policy, who: Address): bool {
    who in att.members && att.members[who]
  }

  /** `last` ledgers ago is too soon; a clock behind its ledger counts as no time at all. */
  predicate InCooldown(minInterval: nat, now: nat, last: nat) {
    (if last <= now then now - last else 0) < minInterval
  }

  ghost function SubmissionProblem(att: Policy, now: nat, signer: Address, d: Name, last: map<Name, nat>)
    : Option<Failure>
  {
    if !IsMember(att, signer) then Some(NotAnAttester)
    else if !IsDomain(d) then Some(InvalidDomain)
    else if d in last && InCooldown(att.minInterval, now, last[d]) then Some(TooSoon)
    else None
  }

  ghost function Attested(b: Both, now: nat, signer: Address, r: AnchorRecord): Outcome {
    var problem := SubmissionProblem(b.att, now, signer, r.domain, b.att.lastAttest);
    var answer := AnchorPut(b.reg, now, b.att.self, r.(attester := signer));
    if problem.Some? then Outcome(b, problem)
    else if answer.error.Some? then Outcome(b, Some(Relayed(answer.error.value)))
    else Outcome(Both(b.att.(lastAttest := b.att.lastAttest[r.domain := now]), answer.store), None)
  }

  ghost function MetaAttested(b: Both, now: nat, signer: Address, m: AnchorMeta): Outcome {
    var problem := SubmissionProblem(b.att, now, signer, m.domain, b.att.lastMeta);
    var answer := MetaPut(b.reg, now, b.att.self, m.(attester := signer));
    if problem.Some? then Outcome(b, problem)
    else if AssetProblem(m.receiveAssets).Some? then Outcome(b, Some(BadMeta(AssetProblem(m.receiveAssets).value)))
    else if !GoodCountry(m.country) then Outcome(b, Some(BadMeta(InvalidCountry)))
    else if answer.error.Some? then Outcome(b, Some(Relayed(answer.error.value)))
    else Outcome(Both(b.att.(lastMeta := b.att.lastMeta[m.domain := now]), answer.store), None)
  }

  // ----- The contract --------------------------------------------------------------------------------

  class Attester {
    const self: Address
    const registry: Registry
    var members: map<Address, bool>
    var minInterval: nat
    var lastAttest: map<Name, nat>
    var lastMeta: map<Name, nat>

    function Contents(): Both
      reads this, registry
    {
      Both(Policy(self, members, minInterval, lastAttest, lastMeta), registry.Contents())
    }

    constructor (self: Address, registry: Registry, minInterval: nat)
      ensures this.self == self && this.registry == registry && this.minInterval == minInterval
      ensures members == map[] && lastAttest == map[] && lastMeta == map[]
    {
      this.self, this.registry, this.minInterval := self, registry, minInterval;
      members, lastAttest, lastMeta := map[], map[], map[];
    }

    /** The gates every submission passes: membership, one spelling, and its own cooldown. */
    method CheckSubmission(now: nat, signer: Address, domain: Name, last: map<Name, nat>)
      returns (e: Option<Failure>)
      ensures e == SubmissionProblem(Contents().att, now, signer, domain, last)
      ensures e == Some(NotAnAttester) <==> signer !in members || members[signer] == false
      ensures e == Some(InvalidDomain) <==> signer in members && members[signer] && !IsDomain(domain)
      ensures e == Some(TooSoon) <==>
                && signer in members && members[signer] && IsDomain(domain)
                && domain in last && minInterval > 0 && now < last[domain] + minInterval
      ensures e in {None, Some(NotAnAttester), Some(InvalidDomain), Some(TooSoon)}
    {
      if !(signer in members && members[signer]) { return Some(NotAnAttester); }
      var canonical := IsCanonicalDomainBytes(domain);
      if !canonical { return Some(InvalidDomain); }
      if domain in last {
        var elapsed := if last[domain] <= now then now - last[domain] else 0;
        if elapsed < minInterval { return Some(TooSoon); }
      }
      e := None;
    }

    method Attest(now: nat, signer: Address, domain: Name, seps: Bits, tomlHash: Name, probesRun: Bits,
                  probesPassed: Bits) returns (e: Option<Failure>)
      modifies this, registry
      ensures var r := AnchorRecord(domain, seps, tomlHash, probesRun, probesPassed, now, signer);
              Outcome(Contents(), e) == Attested(old(Contents()), now, signer, r)
      // An accepted attestation is from a member, is stored as given under the signer's name, and
      // starts its own cooldown; a refused one changes nothing.
      ensures e.None? ==>
                && signer in old(members) && old(members)[signer] && IsDomain(domain)
                && registry.anchors == old(registry.anchors)[domain := AnchorRecord(
                     domain, seps, tomlHash, probesRun, probesPassed, now, signer)]
                && registry.metas == old(registry.metas)
                && lastAttest == old(lastAttest)[domain := now] && lastMeta == old(lastMeta)
      ensures members == old(members) && minInterval == old(minInterval)
      ensures e.Some? ==> Contents() == old(Contents())
    {
      e := CheckSubmission(now, signer, domain, lastAttest);
      if e.Some? { return; }
      var refused := registry.PutAnchor(now, self, domain, seps, tomlHash, probesRun, probesPassed, signer);
      if refused.Some? { return Some(Relayed(refused.value)); }
      lastAttest := lastAttest[domain := now];
    }

    method AttestMeta(now: nat, signer: Address, domain: Name, receiveAssets: seq<Name>, country: Option<Name>)
      returns (e: Option<Failure>)
      modifies this, registry
      ensures var m := AnchorMeta(domain, receiveAssets, country, now, signer);
              Outcome(Contents(), e) == MetaAttested(old(Contents()), now, signer, m)
      ensures e.None? ==>
                && signer in old(members) && old(members)[signer] && IsDomain(domain)
                && registry.metas == old(registry.metas)[domain := AnchorMeta(
                     domain, receiveAssets, country, now, signer)]
                && registry.anchors == old(registry.anchors)
                && lastMeta == old(lastMeta)[domain := now] && lastAttest == old(lastAttest)
      ensures members == old(members) && minInterval == old(minInterval)
      ensures e.Some? ==> Contents() == old(Contents())
    {
      e := CheckSubmission(now, signer, domain, lastMeta);
      if e.Some? { return; }
      var bad := CheckReceiveAssets(receiveAssets);
      if bad.Some? { return Some(BadMeta(bad.value)); }
      if !GoodCountry(country) { return Some(BadMeta(InvalidCountry)); }
      var refused := registry.PutMeta(now, self, domain, receiveAssets, country, signer);
      if refused.Some? { return Some(Relayed(refused.value)); }
      lastMeta := lastMeta[domain := now];
    }

    method SetMember(who: Address, may: bool)
      modifies this`members
      ensures members == old(members)[who := may]
    {
      members := members[who := may];
    }

    method SetMinInterval(ledgers: nat)
      modifies this`minInterval
      ensures minInterval == ledgers
    {
      minInterval := ledgers;
    }
  }

  // ----- Any sequence of calls ---------------------------------------------------------------------------

  datatype Call =
    | Attest(signer: Address, record: AnchorRecord)
    | AttestMeta(signer: Address, meta: AnchorMeta)
    | BumpDomain(domain: Name)                             // by anyone, on the registry
    | Intrude(caller: Address, record: AnchorRecord)       // put_anchor by someone else
    | IntrudeMeta(caller: Address, meta: AnchorMeta)       // put_meta by someone else
    | SetMember(who: Address, may: bool)
    | SetMinInterval(ledgers: nat)

  datatype Timed = Timed(now: nat, call: Call)

  function Told(b: Both, a: Answer): Outcome {
    Outcome(b.(reg := a.store), if a.error.Some? then Some(Relayed(a.error.value)) else None)
  }

  ghost function Happens(b: Both, t: Timed): Outcome {
    match t.call
    case Attest(signer, r) => Attested(b, t.now, signer, r)
    case AttestMeta(signer, m) => MetaAttested(b, t.now, signer, m)
    case BumpDomain(d) => Told(b, Bumped(b.reg, t.now, d))
    case Intrude(caller, r) => Told(b, AnchorPut(b.reg, t.now, caller, r))
    case IntrudeMeta(caller, m) => Told(b, MetaPut(b.reg, t.now, caller, m))
    case SetMember(who, may) => Outcome(b.(att := b.att.(members := b.att.members[who := may])), None)
    case SetMinInterval(n) => Outcome(b.(att := b.att.(minInterval := n)), None)
  }

  /** Nobody else has the attester contract's address. */
  predicate Honest(b: Both, t: Timed) {
    && (t.call.Intrude? ==> t.call.caller != b.att.self)
    && (t.call.IntrudeMeta? ==> t.call.caller != b.att.self)
  }

  /** Two fresh contracts that point at each other. */
  predicate Fresh(b: Both) {
    && b.reg.writer == b.att.self && b.reg.domains == [] && b.reg.anchors == map[] && b.reg.metas == map[]
    && b.reg.anchorUntil == map[] && b.reg.metaUntil == map[]
    && b.att.lastAttest == map[] && b.att.lastMeta == map[]
  }

  ghost function After(b: Both, h: seq<Timed>): Both {
    if h == [] then b else Happens(After(b, h[..|h| - 1]), h[|h| - 1]).both
  }

  ghost predicate AllHonest(b: Both, h: seq<Timed>) {
    forall t | t in h :: Honest(b, t)
  }

  /** The clocks of the two contracts say the same, and only canonical domains are recorded. */
  ghost predicate Coupled(b: Both) {
    && b.reg.writer == b.att.self && Sound(b.reg)
    && b.att.lastAttest.Keys == b.reg.anchors.Keys && b.att.lastMeta.Keys == b.reg.metas.Keys
    && (forall d | d in b.reg.anchors :: b.att.lastAttest[d] == b.reg.anchors[d].attestedLedger && IsDomain(d))
    && (forall d | d in b.reg.metas :: b.att.lastMeta[d] == b.reg.metas[d].attestedLedger)
  }

  lemma CoupledStep(b: Both, t: Timed)
    requires Coupled(b) && Honest(b, t)
    ensures Coupled(Happens(b, t).both) && Happens(b, t).both.att.self == b.att.self
  {
    match t.call
    case Attest(signer, r) => AttestKeepsCoupled(b, t.now, signer, r);
    case AttestMeta(signer, m) => MetaKeepsCoupled(b, t.now, signer, m);
    case BumpDomain(d) => BumpKeepsCoupled(b, t.now, d);
    case Intrude(caller, r) => IntrudersAreRefused(b, t);
    case IntrudeMeta(caller, m) => IntrudersAreRefused(b, t);
    case SetMember(_, _) =>
    case SetMinInterval(_) =>
  }

  lemma AttestKeepsCoupled(b: Both, now: nat, signer: Address, r: AnchorRecord)
    requires Coupled(b)
    ensures Coupled(Attested(b, now, signer, r).both)
  {
    PutAnchorStaysSound(b.reg, now, b.att.self, r.(attester := signer));
  }

  lemma MetaKeepsCoupled(b: Both, now: nat, signer: Address, m: AnchorMeta)
    requires Coupled(b)
    ensures Coupled(MetaAttested(b, now, signer, m).both)
  {
    PutMetaStaysSound(b.reg, now, b.att.self, m.(attester := signer));
  }

  lemma BumpKeepsCoupled(b: Both, now: nat, d: Name)
    requires Coupled(b)
    ensures Coupled(Told(b, Bumped(b.reg, now, d)).both)
  {
    BumpChangesNoFact(b.reg, now, d);
  }

  /** The registry takes nothing from anyone but its attester. */
  lemma IntrudersAreRefused(b: Both, t: Timed)
    requires b.reg.writer == b.att.self && Honest(b, t) && (t.call.Intrude? || t.call.IntrudeMeta?)
    ensures Happens(b, t).failure.Some? && Happens(b, t).both == b
  {
  }

  /** While only this attester writes to the registry: the registry's records are sound, both
      contracts agree on when each domain was last attested, and no two recorded domains differ
      only by case or a trailing dot. */
  lemma {:induction false} ContractsStayCoupled(b: Both, h: seq<Timed>)
    requires Fresh(b) && AllHonest(b, h)
    ensures Coupled(After(b, h)) && After(b, h).att.self == b.att.self
    ensures forall d, e | d in After(b, h).reg.anchors && e in After(b, h).reg.anchors && Lower(d) == Lower(e) :: d == e
  {
    if h != [] {
      var n := |h| - 1;
      ContractsStayCoupled(b, h[..n]);
      assert h[n] in h;
      CoupledStep(After(b, h[..n]), h[n]);
    }
    var s := After(b, h);
    forall d, e | d in s.reg.anchors && e in s.reg.anchors && Lower(d) == Lower(e) ensures d == e {
      OneSpelling(d, e);
    }
  }

  /** A rejected call leaves both contracts exactly as they were. */
  lemma RejectedCallsChangeNothing(b: Both, t: Timed)
    ensures Happens(b, t).failure.Some? ==> Happens(b, t).both == b
  {
  }

  /** The two cooldowns never block each other: whether one half is accepted does not depend on
      when the other was written. */
  lemma ClocksAreIndependent(b: Both, now: nat, signer: Address, r: AnchorRecord, m: AnchorMeta,
                             otherAttest: map<Name, nat>, otherMeta: map<Name, nat>)
    ensures Attested(b, now, signer, r).failure
         == Attested(b.(att := b.att.(lastMeta := otherMeta)), now, signer, r).failure
    ensures MetaAttested(b, now, signer, m).failure
         == MetaAttested(b.(att := b.att.(lastAttest := otherAttest)), now, signer, m).failure
  {
  }

  // ----- Attestations are spaced -------------------------------------------------------------------------

  ghost predicate Ordered(h: seq<Timed>) {
    forall i, j | 0 <= i < j < |h| :: h[i].now <= h[j].now
  }

  /** Call `i` was an accepted attestation of `d`. */
  ghost predicate AcceptedAt(b: Both, h: seq<Timed>, i: nat, d: Name) {
    && i < |h| && h[i].call.Attest? && h[i].call.record.domain == d
    && Happens(After(b, h[..i]), h[i]).failure.None?
  }

  ghost predicate MetaAcceptedAt(b: Both, h: seq<Timed>, i: nat, d: Name) {
    && i < |h| && h[i].call.AttestMeta? && h[i].call.meta.domain == d
    && Happens(After(b, h[..i]), h[i]).failure.None?
  }

  lemma LastOnlyGrows(b: Both, t: Timed, d: Name, at: nat)
    requires at <= t.now
    ensures d in b.att.lastAttest && b.att.lastAttest[d] >= at ==>
              d in Happens(b, t).both.att.lastAttest && Happens(b, t).both.att.lastAttest[d] >= at
    ensures d in b.att.lastMeta && b.att.lastMeta[d] >= at ==>
              d in Happens(b, t).both.att.lastMeta && Happens(b, t).both.att.lastMeta[d] >= at
  {
  }

  lemma {:induction false} LastIsRemembered(b: Both, h: seq<Timed>, i: nat, j: nat, d: Name)
    requires i < j <= |h| && Ordered(h)
    ensures AcceptedAt(b, h, i, d) ==>
              d in After(b, h[..j]).att.lastAttest && After(b, h[..j]).att.lastAttest[d] >= h[i].now
    ensures MetaAcceptedAt(b, h, i, d) ==>
              d in After(b, h[..j]).att.lastMeta && After(b, h[..j]).att.lastMeta[d] >= h[i].now
    decreases j
  {
    assert h[..j][..j - 1] == h[..j - 1];
    if i < j - 1 {
      LastIsRemembered(b, h, i, j - 1, d);
      LastOnlyGrows(After(b, h[..j - 1]), h[j - 1], d, h[i].now);
    }
  }

  /** Two accepted attestations of one domain lie at least the interval in force at the second
      apart, whatever is called in between; and so do two accepted metadata writes. */
  lemma AttestationsAreSpaced(b: Both, h: seq<Timed>, i: nat, j: nat, d: Name)
    requires i < j < |h| && Ordered(h)
    ensures AcceptedAt(b, h, i, d) && AcceptedAt(b, h, j, d) ==>
              h[j].now - h[i].now >= After(b, h[..j]).att.minInterval
    ensures MetaAcceptedAt(b, h, i, d) && MetaAcceptedAt(b, h, j, d) ==>
              h[j].now - h[i].now >= After(b, h[..j]).att.minInterval
  {
    LastIsRemembered(b, h, i, j, d);
  }

  // ----- Nothing expires -----------------------------------------------------------------------------------

  /** When each registered domain was last bumped, or first registered. */
  ghost function TendedBy(b: Both, tended: map<Name, nat>, t: Timed): map<Name, nat> {
    if Happens(b, t).failure.Some? then tended
    else
      match t.call
      case BumpDomain(d) => tended[d := t.now]
      case Attest(_, r) => if r.domain in b.reg.anchors then tended else tended[r.domain := t.now]
      case _ => tended
  }

  ghost function Tended(b: Both, h: seq<Timed>): map<Name, nat> {
    if h == [] then map[]
    else
      var before := h[..|h| - 1];
      TendedBy(After(b, before), Tended(b, before), h[|h| - 1])
  }

  /** No domain has gone longer than `gap` without a bump. */
  ghost predicate Diligent(tended: map<Name, nat>, now: nat, gap: nat) {
    forall d | d in tended :: now <= tended[d] + gap
  }

  ghost predicate AlwaysDiligent(b: Both, h: seq<Timed>, gap: nat) {
    forall i | 0 <= i < |h| :: Diligent(Tended(b, h[..i]), h[i].now, gap)
  }

  /** Every entry lives at least as long past the last time its domain was tended as an extension
      leaves it at the least. */
  ghost predicate LongLived(s: Store, tended: map<Name, nat>) {
    && tended.Keys == s.anchors.Keys == s.anchorUntil.Keys
    && (forall d | d in tended :: tended[d] + LeastLeft(s.atThreshold) <= s.anchorUntil[d])
    && (forall d | d in tended :: tended[d] + LeastLeft(s.atThreshold) <= s.instanceUntil)
    && (forall d | d in s.metaUntil :: d in tended && tended[d] + LeastLeft(s.atThreshold) <= s.metaUntil[d])
  }

  ghost predicate EverythingLives(s: Store, now: nat) {
    && (s.domains != [] ==> LiveInstance(s, now))
    && forall d | d in s.anchors :: LiveAnchor(s, d, now) && LiveMeta(s, d, now)
  }

  lemma LongLivedStep(b: Both, tended: map<Name, nat>, t: Timed)
    requires Coupled(b) && Honest(b, t) && LongLived(b.reg, tended)
    requires forall d | d in tended :: tended[d] <= t.now
    ensures LongLived(Happens(b, t).both.reg, TendedBy(b, tended, t))
  {
    if t.call.Attest? { AttestLives(b, tended, t); }
    else if t.call.AttestMeta? { MetaLives(b, tended, t); }
    else if t.call.BumpDomain? { BumpLives(b.reg, tended, t.now, t.call.domain); }
    else if t.call.Intrude? || t.call.IntrudeMeta? { IntrudersAreRefused(b, t); }
  }

  lemma TheHostStays(b: Both, t: Timed)
    ensures Happens(b, t).both.reg.atThreshold == b.reg.atThreshold
  {
  }

  lemma TendingIsPast(b: Both, tended: map<Name, nat>, t: Timed)
    requires forall d | d in tended :: tended[d] <= t.now
    ensures forall d | d in TendedBy(b, tended, t) :: TendedBy(b, tended, t)[d] <= t.now
  {
  }

  lemma AttestLives(b: Both, tended: map<Name, nat>, t: Timed)
    requires t.call.Attest? && LongLived(b.reg, tended) && forall d | d in tended :: tended[d] <= t.now
    ensures LongLived(Happens(b, t).both.reg, TendedBy(b, tended, t))
  {
    var r := t.call.record.(attester := t.call.signer);
    if AnchorProblem(b.reg, t.now, b.att.self, r).None? { PutAnchorExtends(b.reg, t.now, b.att.self, r); }
  }

  lemma MetaLives(b: Both, tended: map<Name, nat>, t: Timed)
    requires t.call.AttestMeta? && LongLived(b.reg, tended) && forall d | d in tended :: tended[d] <= t.now
    ensures LongLived(Happens(b, t).both.reg, TendedBy(b, tended, t))
  {
    var m := t.call.meta.(attester := t.call.signer);
    if MetaProblem(b.reg, t.now, b.att.self, m).None? { PutMetaExtends(b.reg, t.now, b.att.self, m); }
  }

  lemma BumpLives(s: Store, tended: map<Name, nat>, now: nat, d: Name)
    requires LongLived(s, tended) && forall e | e in tended :: tended[e] <= now
    ensures var answer := Bumped(s, now, d);
            LongLived(answer.store, if answer.error.Some? then tended else tended[d := now])
  {
    ExtendingLengthens(s.instanceUntil, now, s.atThreshold);
    if d in s.anchorUntil { ExtendingLengthens(s.anchorUntil[d], now, s.atThreshold); }
    if d in s.metaUntil { ExtendingLengthens(s.metaUntil[d], now, s.atThreshold); }
  }

  lemma {:induction false} EntriesAreLongLived(b: Both, h: seq<Timed>)
    requires Fresh(b) && AllHonest(b, h) && Ordered(h)
    ensures LongLived(After(b, h).reg, Tended(b, h)) && After(b, h).reg.atThreshold == b.reg.atThreshold
    ensures h != [] ==> forall d | d in Tended(b, h) :: Tended(b, h)[d] <= h[|h| - 1].now
  {
    if h != [] {
      var n := |h| - 1;
      assert forall t | t in h[..n] :: t in h;
      EntriesAreLongLived(b, h[..n]);
      ContractsStayCoupled(b, h[..n]);
      assert h[n] in h;
      LongLivedStep(After(b, h[..n]), Tended(b, h[..n]), h[n]);
      TendingIsPast(After(b, h[..n]), Tended(b, h[..n]), h[n]);
      TheHostStays(After(b, h[..n]), h[n]);
    }
  }

  /** From the first write on, as long as every registered domain is bumped at gaps of at most the
      threshold, no record, metadata or instance entry has expired at `now`; and one ledger longer
      will do where the host also extends at exactly the threshold. */
  lemma NothingExpires(b: Both, h: seq<Timed>, now: nat, gap: nat)
    requires Fresh(b) && AllHonest(b, h) && Ordered(h) && Diligent(Tended(b, h), now, gap)
    requires gap <= LeastLeft(b.reg.atThreshold)
    ensures EverythingLives(After(b, h).reg, now)
  {
    EntriesAreLongLived(b, h);
    ContractsStayCoupled(b, h);
    var s := After(b, h).reg;
    if s.domains != [] {
      assert s.domains[0] in s.domains;
      assert s.domains[0] in s.anchors;
    }
  }

  /** ... so no call is ever turned away for an archived entry. */
  lemma NoCallMeetsAnArchive(b: Both, h: seq<Timed>, i: nat)
    requires Fresh(b) && AllHonest(b, h) && Ordered(h) && AlwaysDiligent(b, h, TTL_THRESHOLD) && i < |h|
    requires After(b, h[..i]).reg.domains != []
    ensures Happens(After(b, h[..i]), h[i]).failure != Some(Relayed(Archived))
  {
    var before := h[..i];
    assert forall t | t in before :: t in h;
    NothingExpires(b, before, h[i].now, TTL_THRESHOLD);
    ContractsStayCoupled(b, before);
    LiveThroughout(After(b, before).reg, h[i].now);
    NotArchived(After(b, before), h[i]);
  }

  lemma LiveThroughout(s: Store, now: nat)
    requires Sound(s) && s.domains != [] && EverythingLives(s, now)
    ensures LiveInstance(s, now) && forall d :: LiveAnchor(s, d, now) && LiveMeta(s, d, now)
  {
  }

  lemma NotArchived(b: Both, t: Timed)
    requires LiveInstance(b.reg, t.now)
    requires forall d :: LiveAnchor(b.reg, d, t.now) && LiveMeta(b.reg, d, t.now)
    ensures Happens(b, t).failure != Some(Relayed(Archived))
  {
  }

  // ----- The safe gaps, exactly ------------------------------------------------------------------------------

  /** Every registered domain has been bumped at gaps of at most `gap`, up to `now`. */
  ghost predicate Timely(b: Both, h: seq<Timed>, now: nat, gap: nat) {
    && AllHonest(b, h) && Ordered(h) && (h != [] ==> h[|h| - 1].now <= now)
    && AlwaysDiligent(b, h, gap) && Diligent(Tended(b, h), now, gap)
  }

  /** Bumps at such gaps keep everything alive, over every history of fresh contracts. */
  ghost predicate SafeGap(atThreshold: bool, gap: nat) {
    forall b, h, now: nat | Fresh(b) && b.reg.atThreshold == atThreshold && Timely(b, h, now, gap) ::
      EverythingLives(After(b, h).reg, now)
  }

  /** The gaps between bumps that are always safe, exactly: up to the threshold, or one ledger more
      where the host also extends at exactly the threshold. */
  lemma SafeGapsExactly(atThreshold: bool, gap: nat)
    ensures SafeGap(atThreshold, gap) <==> gap <= LeastLeft(atThreshold)
  {
    if gap <= LeastLeft(atThreshold) {
      forall b, h, now: nat | Fresh(b) && b.reg.atThreshold == atThreshold && Timely(b, h, now, gap)
        ensures EverythingLives(After(b, h).reg, now)
      {
        NothingExpires(b, h, now, gap);
      }
    } else {
      var b := Young(atThreshold);
      var h := Lapse(atThreshold, gap);
      assert Timely(b, h, TTL_EXTEND_TO + 1, gap);
      assert !EverythingLives(After(b, h).reg, TTL_EXTEND_TO + 1);
    }
  }

  const MEMBER: Address := "member"
  const DOMAIN: Name := [97]

  /** Two fresh contracts with one member. */
  function Young(atThreshold: bool): (b: Both)
    ensures Fresh(b) && b.reg.atThreshold == atThreshold
  {
    Both(Policy("attester", map[MEMBER := true], 0, map[], map[]),
         Store("attester", [], map[], map[], map[], map[], 0, 0, atThreshold))
  }

  function ARecord(): AnchorRecord {
    AnchorRecord(DOMAIN, 0, [], 0, 0, 0, MEMBER)
  }

  lemma OneMoreCall(b: Both, h: seq<Timed>, t: Timed)
    ensures After(b, h + [t]) == Happens(After(b, h), t).both
    ensures Tended(b, h + [t]) == TendedBy(After(b, h), Tended(b, h), t)
  {
    assert (h + [t])[..|h|] == h;
  }

  lemma TheDomainIsOne()
    ensures IsDomain(DOMAIN)
  {
    assert IsLabel(DOMAIN) && Join([DOMAIN]) == DOMAIN;
    assert forall l | l in [DOMAIN] :: IsLabel(l);
  }

  /** The young contracts with their one record, which lives until its first extension runs out. */
  ghost predicate OneRecord(b: Both) {
    && b.reg.anchors.Keys == {DOMAIN} == b.reg.anchorUntil.Keys && b.reg.metaUntil == map[]
    && b.reg.anchorUntil[DOMAIN] == TTL_EXTEND_TO == b.reg.instanceUntil
  }

  lemma FirstAttested(atThreshold: bool)
    ensures var outcome := Happens(Young(atThreshold), Timed(0, Attest(MEMBER, ARecord())));
            outcome.failure.None? && OneRecord(outcome.both) && outcome.both.reg.atThreshold == atThreshold
  {
    TheDomainIsOne();
    var r := ARecord();
    assert AnchorProblem(Young(atThreshold).reg, 0, "attester", r).None?;
  }

  /** A bump that finds more life left than it would extend adds nothing. */
  lemma IdleBump(b: Both, now: nat)
    requires OneRecord(b) && now + LeastLeft(b.reg.atThreshold) <= TTL_EXTEND_TO
    ensures var outcome := Happens(b, Timed(now, BumpDomain(DOMAIN)));
            outcome.failure.None? && OneRecord(outcome.both) && outcome.both.reg.atThreshold == b.reg.atThreshold
  {
  }

  /** One record, bumped in time by the longer gap: the last bump adds nothing, and before the next
      one is due the record is gone. */
  lemma Lapse(atThreshold: bool, gap: nat) returns (h: seq<Timed>)
    requires gap > LeastLeft(atThreshold)
    ensures Timely(Young(atThreshold), h, TTL_EXTEND_TO + 1, gap)
    ensures var s := After(Young(atThreshold), h).reg;
            DOMAIN in s.anchors && !LiveAnchor(s, DOMAIN, TTL_EXTEND_TO + 1)
  {
    var b, last := Young(atThreshold), TTL_EXTEND_TO - LeastLeft(atThreshold);
    var t0 := Timed(0, Attest(MEMBER, ARecord()));
    var t1, t2 := Timed(TTL_THRESHOLD, BumpDomain(DOMAIN)), Timed(last, BumpDomain(DOMAIN));
    OneMoreCall(b, [], t0);
    FirstAttested(atThreshold);
    assert [] + [t0] == [t0];
    OneMoreCall(b, [t0], t1);
    IdleBump(After(b, [t0]), TTL_THRESHOLD);
    OneMoreCall(b, [t0] + [t1], t2);
    IdleBump(After(b, [t0] + [t1]), last);
    h := [t0] + [t1] + [t2];
    TimelyLapse(atThreshold, gap, h);
  }

  lemma TimelyLapse(atThreshold: bool, gap: nat, h: seq<Timed>)
    requires gap > LeastLeft(atThreshold) && |h| == 3
    requires var b := Young(atThreshold);
             && h[0] == Timed(0, Attest(MEMBER, ARecord())) && h[1] == Timed(TTL_THRESHOLD, BumpDomain(DOMAIN))
             && h[2] == Timed(TTL_EXTEND_TO - LeastLeft(atThreshold), BumpDomain(DOMAIN))
             && Tended(b, h[..0]) == map[] && Tended(b, h[..1]) == map[DOMAIN := 0]
             && Tended(b, h[..2]) == map[DOMAIN := TTL_THRESHOLD] && Tended(b, h) == map[DOMAIN := h[2].now]
    ensures Timely(Young(atThreshold), h, TTL_EXTEND_TO + 1, gap)
  {
  }
}
