/**
 * What the two contracts say at the end of any sequence of calls, read off the calls themselves:
 * who may attest is whom the owner named last, and what a domain's entries say is what was last
 * accepted for it.
 */
module Facts {
  import opened Prelude
  import opened Registries
  import opened Attesters

  // ----- Who may attest ----------------------------------------------------------------------

  /** Nothing has been said about this address since call `k`. */
  predicate UnnamedSince(h: seq<Timed>, who: Address, k: nat) {
    forall j | k <= j < |h| && h[j].call.SetMember? :: h[j].call.who != who
  }

  /** Call `k` is the last word on whether this address may attest. */
  predicate LastWord(h: seq<Timed>, who: Address, k: nat, may: bool) {
    k < |h| && h[k].call == Call.SetMember(who, may) && UnnamedSince(h, who, k + 1)
  }

  /** The owner's last word on this address was yes; or it was a member to begin with, and there
      has been none. */
  ghost predicate Enrolled(b: Both, h: seq<Timed>, who: Address) {
    || (exists k :: LastWord(h, who, k, true))
    || (UnnamedSince(h, who, 0) && who in b.att.members && b.att.members[who] == true)
  }

  lemma {:induction false} MembersAreTheEnrolled(b: Both, h: seq<Timed>, who: Address)
    ensures var members := After(b, h).att.members;
            (who in members && members[who] == true) <==> Enrolled(b, h, who)
  {
    if h != [] {
      var n := |h| - 1;
      var before := h[..n];
      MembersAreTheEnrolled(b, before, who);
      if h[n].call.SetMember? && h[n].call.who == who {
        assert LastWord(h, who, n, h[n].call.may);
      } else {
        forall k, may ensures LastWord(h, who, k, may) <==> LastWord(before, who, k, may) {
          StillTheLastWord(h, who, k, may);
        }
        assert UnnamedSince(h, who, 0) <==> UnnamedSince(before, who, 0);
      }
    }
  }

  lemma StillTheLastWord(h: seq<Timed>, who: Address, k: nat, may: bool)
    requires h != [] && !(h[|h| - 1].call.SetMember? && h[|h| - 1].call.who == who)
    ensures LastWord(h, who, k, may) <==> LastWord(h[..|h| - 1], who, k, may)
  {
  }

  predicate SignedBy(t: Timed, who: Address) {
    (t.call.Attest? || t.call.AttestMeta?) && t.call.signer == who
  }

  /** Whoever was removed, or never enrolled, is refused, and both contracts stay as they are; so an
      attestation that is accepted is signed by an address the owner's last word was yes for. */
  lemma OnlyTheEnrolledAttest(b: Both, h: seq<Timed>, i: nat, who: Address)
    requires i < |h| && SignedBy(h[i], who)
    ensures !Enrolled(b, h[..i], who) ==>
              && Happens(After(b, h[..i]), h[i]).failure == Some(NotAnAttester)
              && After(b, h[..i + 1]) == After(b, h[..i])
    ensures Enrolled(b, h[..i], who) ==> Happens(After(b, h[..i]), h[i]).failure != Some(NotAnAttester)
  {
    MembersAreTheEnrolled(b, h[..i], who);
    assert h[..i + 1][..i] == h[..i];
  }

  // ----- What the registry says --------------------------------------------------------------

  /** No attestation of `d` was accepted from call `k` on. */
  ghost predicate NoneAttested(b: Both, h: seq<Timed>, k: nat, d: Name) {
    forall j: nat | k <= j < |h| :: !AcceptedAt(b, h, j, d)
  }

  ghost predicate NoneDescribed(b: Both, h: seq<Timed>, k: nat, d: Name) {
    forall j: nat | k <= j < |h| :: !MetaAcceptedAt(b, h, j, d)
  }

  /** Two maps say the same about one domain. */
  predicate SameEntry<T(==)>(a: map<Name, T>, b: map<Name, T>, d: Name) {
    (d in a <==> d in b) && (d in a ==> a[d] == b[d])
  }

  /** An accepted attestation stores what it says; nothing else changes a record. */
  lemma OneCallsRecord(b: Both, t: Timed)
    requires b.reg.writer == b.att.self && Honest(b, t)
    ensures var after, call := Happens(b, t), t.call;
            after.both.reg.anchors ==
              if call.Attest? && after.failure.None? then
                b.reg.anchors[call.record.domain := call.record.(attestedLedger := t.now, attester := call.signer)]
              else b.reg.anchors
  {
    if t.call.BumpDomain? { BumpChangesNoFact(b.reg, t.now, t.call.domain); }
    if t.call.Intrude? || t.call.IntrudeMeta? { IntrudersAreRefused(b, t); }
  }

  lemma OneCallsMeta(b: Both, t: Timed)
    requires b.reg.writer == b.att.self && Honest(b, t)
    ensures var after, call := Happens(b, t), t.call;
            after.both.reg.metas ==
              if call.AttestMeta? && after.failure.None? then
                b.reg.metas[call.meta.domain := call.meta.(attestedLedger := t.now, attester := call.signer)]
              else b.reg.metas
  {
    if t.call.BumpDomain? { BumpChangesNoFact(b.reg, t.now, t.call.domain); }
    if t.call.Intrude? || t.call.IntrudeMeta? { IntrudersAreRefused(b, t); }
  }

  lemma {:induction false} TheWriterStays(b: Both, h: seq<Timed>)
    requires b.reg.writer == b.att.self && AllHonest(b, h)
    ensures After(b, h).reg.writer == After(b, h).att.self == b.att.self
  {
    if h != [] {
      var n := |h| - 1;
      assert h[n] in h && forall t | t in h[..n] :: t in h;
      TheWriterStays(b, h[..n]);
      NobodyChangesTheWriter(After(b, h[..n]), h[n]);
    }
  }

  lemma NobodyChangesTheWriter(b: Both, t: Timed)
    ensures Happens(b, t).both.reg.writer == b.reg.writer && Happens(b, t).both.att.self == b.att.self
  {
  }

  lemma {:induction false} RecordsStay(b: Both, h: seq<Timed>, k: nat, d: Name)
    requires b.reg.writer == b.att.self && AllHonest(b, h) && k <= |h| && NoneAttested(b, h, k, d)
    ensures SameEntry(After(b, h).reg.anchors, After(b, h[..k]).reg.anchors, d)
  {
    var n := |h| - 1;
    if k < |h| {
      EarlierCalls(b, h, k, d);
      assert h[..n][..k] == h[..k];
      assert h[n] in h && forall t | t in h[..n] :: t in h;
      RecordsStay(b, h[..n], k, d);
      TheWriterStays(b, h[..n]);
      OneCallsRecord(After(b, h[..n]), h[n]);
    } else {
      assert h[..k] == h;
    }
  }

  lemma {:induction false} MetasStay(b: Both, h: seq<Timed>, k: nat, d: Name)
    requires b.reg.writer == b.att.self && AllHonest(b, h) && k <= |h| && NoneDescribed(b, h, k, d)
    ensures SameEntry(After(b, h).reg.metas, After(b, h[..k]).reg.metas, d)
  {
    var n := |h| - 1;
    if k < |h| {
      EarlierCalls(b, h, k, d);
      assert h[..n][..k] == h[..k];
      assert h[n] in h && forall t | t in h[..n] :: t in h;
      MetasStay(b, h[..n], k, d);
      TheWriterStays(b, h[..n]);
      OneCallsMeta(After(b, h[..n]), h[n]);
    } else {
      assert h[..k] == h;
    }
  }

  /** What the record of a domain says is what its last accepted attestation said, at the ledger of
      that call and under its signer's name. */
  lemma RecordsSayWhatWasLastAttested(b: Both, h: seq<Timed>, i: nat, d: Name)
    requires b.reg.writer == b.att.self && AllHonest(b, h)
    requires AcceptedAt(b, h, i, d) && NoneAttested(b, h, i + 1, d)
    ensures d in After(b, h).reg.anchors
    ensures var said := h[i].call.record;
            After(b, h).reg.anchors[d] == AnchorRecord(d, said.seps, said.tomlHash, said.probesRun,
                                                       said.probesPassed, h[i].now, h[i].call.signer)
  {
    assert h[..i + 1][..i] == h[..i] && h[i] in h && forall t | t in h[..i] :: t in h;
    TheWriterStays(b, h[..i]);
    OneCallsRecord(After(b, h[..i]), h[i]);
    RecordsStay(b, h, i + 1, d);
  }

  /** The same for what is said of the domain's assets and country. */
  lemma MetasSayWhatWasLastAttested(b: Both, h: seq<Timed>, i: nat, d: Name)
    requires b.reg.writer == b.att.self && AllHonest(b, h)
    requires MetaAcceptedAt(b, h, i, d) && NoneDescribed(b, h, i + 1, d)
    ensures d in After(b, h).reg.metas
    ensures var said := h[i].call.meta;
            After(b, h).reg.metas[d] == AnchorMeta(d, said.receiveAssets, said.country, h[i].now, h[i].call.signer)
  {
    assert h[..i + 1][..i] == h[..i] && h[i] in h && forall t | t in h[..i] :: t in h;
    TheWriterStays(b, h[..i]);
    OneCallsMeta(After(b, h[..i]), h[i]);
    MetasStay(b, h, i + 1, d);
  }

  /** Where nothing was ever accepted for a domain, two fresh contracts say nothing of it. */
  lemma NothingIsSaidUnattested(b: Both, h: seq<Timed>, d: Name)
    requires Fresh(b) && AllHonest(b, h)
    ensures NoneAttested(b, h, 0, d) ==> d !in After(b, h).reg.anchors
    ensures NoneDescribed(b, h, 0, d) ==> d !in After(b, h).reg.metas
  {
    assert h[..0] == [];
    if NoneAttested(b, h, 0, d) { RecordsStay(b, h, 0, d); }
    if NoneDescribed(b, h, 0, d) { MetasStay(b, h, 0, d); }
  }

  /** Whether a call was accepted does not depend on what came after it. */
  lemma EarlierCall(b: Both, h: seq<Timed>, j: nat, d: Name)
    requires j + 1 < |h|
    ensures AcceptedAt(b, h[..|h| - 1], j, d) <==> AcceptedAt(b, h, j, d)
    ensures MetaAcceptedAt(b, h[..|h| - 1], j, d) <==> MetaAcceptedAt(b, h, j, d)
  {
    assert h[..|h| - 1][..j] == h[..j];
  }

  lemma EarlierCalls(b: Both, h: seq<Timed>, k: nat, d: Name)
    requires k < |h|
    ensures NoneAttested(b, h, k, d) ==> NoneAttested(b, h[..|h| - 1], k, d) && !AcceptedAt(b, h, |h| - 1, d)
    ensures NoneDescribed(b, h, k, d) ==> NoneDescribed(b, h[..|h| - 1], k, d) && !MetaAcceptedAt(b, h, |h| - 1, d)
  {
    var before := h[..|h| - 1];
    forall j: nat | k <= j < |before|
      ensures AcceptedAt(b, before, j, d) <==> AcceptedAt(b, h, j, d)
    {
      EarlierCall(b, h, j, d);
    }
    forall j: nat | k <= j < |before|
      ensures MetaAcceptedAt(b, before, j, d) <==> MetaAcceptedAt(b, h, j, d)
    {
      EarlierCall(b, h, j, d);
    }
  }
}
