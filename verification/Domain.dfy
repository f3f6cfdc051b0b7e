/**
 * The one spelling of a domain that may be attested: the label walk of the contract
 * (contracts/attester/src/lib.rs) over bytes, and its mirror (packages/probe/src/domain.ts) over
 * UTF-16 code units. Both are proved to accept exactly the dot-joined lowercase host names of
 * section 2.3.1 of RFC 1035, at most 253 bytes long, and so to agree on every string.
 */
module Domain {
  import opened Canonical

  type Byte = b: int | 0 <= b < 256

  const DOT := 46
  const HYPHEN := 45
  const MAX_DOMAIN_LEN := 253

  predicate IsLowerAlpha(c: int) { 97 <= c <= 122 }
  predicate IsUpperAlpha(c: int) { 65 <= c <= 90 }
  predicate IsDigit(c: int) { 48 <= c <= 57 }
  predicate IsAlnum(c: int) { IsLowerAlpha(c) || IsDigit(c) }

  // ----- What a domain is -------------------------------------------------------------------

  predicate IsLabel(l: seq<int>) {
    && l != [] && IsAlnum(l[0]) && IsAlnum(l[|l| - 1])
    && forall k | 0 <= k < |l| :: IsAlnum(l[k]) || l[k] == HYPHEN
  }

  function Join(labels: seq<seq<int>>): seq<int> {
    if labels == [] then []
    else if |labels| == 1 then labels[0]
    else labels[0] + [DOT] + Join(labels[1..])
  }

  /** One or more labels joined by single dots. */
  ghost predicate IsJoined(s: seq<int>) {
    exists labels: seq<seq<int>> :: labels != [] && (forall l | l in labels :: IsLabel(l)) && Join(labels) == s
  }

  ghost predicate IsDomain(s: seq<Byte>) {
    |s| <= MAX_DOMAIN_LEN && IsJoined(s)
  }

  /** `s[i..j]` is the whole text between two dots, or between a dot and an end. */
  ghost predicate IsSegment(s: seq<int>, i: nat, j: nat) {
    i <= j <= |s| && (i == 0 || s[i - 1] == DOT) && (j == |s| || s[j] == DOT) && Dotless(s, i, j)
  }

  ghost predicate Dotless(s: seq<int>, i: nat, j: nat)
    requires i <= j <= |s|
  {
    forall n | i <= n < j :: s[n] != DOT
  }

  /** Every segment that ends before `n` is a label. */
  ghost predicate LabelsBefore(s: seq<int>, n: nat) {
    forall i: nat, j: nat | IsSegment(s, i, j) && j < n :: IsLabel(s[i..j])
  }

  ghost predicate AllLabels(s: seq<int>) {
    LabelsBefore(s, |s| + 1)
  }

  /** The walk over segments and the joining of labels describe the same strings. */
  lemma {:induction false} JoinedIsSegmented(s: seq<int>)
    ensures IsJoined(s) <==> s != [] && AllLabels(s)
  {
    if s != [] && AllLabels(s) {
      var labels := Split(s);
    }
    if IsJoined(s) {
      var labels: seq<seq<int>> :| labels != [] && (forall l | l in labels :: IsLabel(l)) && Join(labels) == s;
      JoinsAreSegmented(labels);
    }
  }

  lemma FirstDot(s: seq<int>) returns (k: nat)
    ensures IsSegment(s, 0, k)
  {
    k := 0;
    while k < |s| && s[k] != DOT
      invariant k <= |s| && Dotless(s, 0, k)
    {
      k := k + 1;
    }
  }

  /** A segment of the rest of a string, after its first dot, is a segment of the string. */
  lemma SegmentOfTheRest(s: seq<int>, k: nat, i: nat, j: nat)
    requires k < |s| && IsSegment(s, 0, k) && IsSegment(s[k + 1..], i, j)
    ensures IsSegment(s, i + k + 1, j + k + 1) && s[k + 1..][i..j] == s[i + k + 1..j + k + 1]
  {
    assert s[k + 1..][i..j] == s[i + k + 1..j + k + 1];
  }

  /** ... and every segment of the string but the first comes from there. */
  lemma SegmentAfterTheFirst(s: seq<int>, k: nat, i: nat, j: nat)
    requires k < |s| && IsSegment(s, 0, k) && IsSegment(s, i, j) && i > 0
    ensures k + 1 <= i && IsSegment(s[k + 1..], i - k - 1, j - k - 1)
    ensures s[k + 1..][i - k - 1..j - k - 1] == s[i..j]
  {
    assert s[k + 1..][i - k - 1..j - k - 1] == s[i..j];
  }

  lemma OneFirstSegment(s: seq<int>, k: nat, j: nat)
    requires IsSegment(s, 0, k) && IsSegment(s, 0, j)
    ensures j == k
  {
  }

  lemma NoTrailingDot(s: seq<int>)
    requires s != [] && AllLabels(s)
    ensures s[|s| - 1] != DOT
  {
    if s[|s| - 1] == DOT { assert IsSegment(s, |s|, |s|); }
  }

  lemma {:induction false} Split(s: seq<int>) returns (labels: seq<seq<int>>)
    requires s != [] && AllLabels(s)
    ensures labels != [] && (forall l | l in labels :: IsLabel(l)) && Join(labels) == s
    decreases |s|
  {
    var k := FirstDot(s);
    assert IsLabel(s[0..k]);
    if k == |s| {
      labels := [s];
      assert s[0..k] == s;
    } else {
      var rest := s[k + 1..];
      NoTrailingDot(s);
      forall i: nat, j: nat | IsSegment(rest, i, j) && j < |rest| + 1 ensures IsLabel(rest[i..j]) {
        SegmentOfTheRest(s, k, i, j);
      }
      var others := Split(rest);
      labels := [s[0..k]] + others;
      assert labels[1..] == others;
    }
  }

  lemma {:induction false} JoinsAreSegmented(labels: seq<seq<int>>)
    requires labels != [] && forall l | l in labels :: IsLabel(l)
    ensures Join(labels) != [] && AllLabels(Join(labels))
  {
    var s := Join(labels);
    var first := labels[0];
    assert first in labels;
    if |labels| == 1 {
      OneLabel(first);
    } else {
      var rest := labels[1..];
      forall l | l in rest ensures IsLabel(l) { assert l in labels; }
      JoinsAreSegmented(rest);
      OneMoreLabel(first, Join(rest));
    }
  }

  lemma LabelsHaveNoDot(l: seq<int>)
    requires IsLabel(l)
    ensures DOT !in l
  {
  }

  lemma OneLabel(l: seq<int>)
    requires IsLabel(l)
    ensures AllLabels(l)
  {
    LabelsHaveNoDot(l);
    forall i: nat, j: nat | IsSegment(l, i, j) && j < |l| + 1 ensures IsLabel(l[i..j]) {
      assert l[i..j] == l;
    }
  }

  lemma OneMoreLabel(l: seq<int>, rest: seq<int>)
    requires IsLabel(l) && AllLabels(rest)
    ensures AllLabels(l + [DOT] + rest)
  {
    var s, k := l + [DOT] + rest, |l|;
    LabelsHaveNoDot(l);
    assert s[0..k] == l && s[k] == DOT && s[k + 1..] == rest;
    assert IsSegment(s, 0, k);
    forall i: nat, j: nat | IsSegment(s, i, j) && j < |s| + 1 ensures IsLabel(s[i..j]) {
      if i > 0 { SegmentAfterTheFirst(s, k, i, j); } else { OneFirstSegment(s, k, j); }
    }
  }

  // ----- The two walks ------------------------------------------------------------------------------

  /** The contract's label check: its ends may be of either case, but the loop then rejects
      upper case everywhere. */
  method IsCanonicalLabelBytes(bytes: seq<Byte>, start: nat, end: nat) returns (ok: bool)
    requires start <= end <= |bytes|
    ensures ok <==> IsLabel(bytes[start..end])
  {
    ghost var part := bytes[start..end];
    if start == end { return false; }
    assert part[0] == bytes[start] && part[|part| - 1] == bytes[end - 1];
    if !(IsAlnum(bytes[start]) || IsUpperAlpha(bytes[start])) { return false; }
    if !(IsAlnum(bytes[end - 1]) || IsUpperAlpha(bytes[end - 1])) { return false; }
    var i := start;
    while i < end
      invariant start <= i <= end
      invariant forall k | 0 <= k < i - start :: IsAlnum(part[k]) || part[k] == HYPHEN
    {
      assert part[i - start] == bytes[i];
      if !(IsLowerAlpha(bytes[i]) || IsDigit(bytes[i]) || bytes[i] == HYPHEN) { return false; }
      i := i + 1;
    }
    ok := true;
  }

  /** The contract's walk. */
  method IsCanonicalDomainBytes(domain: seq<Byte>) returns (ok: bool)
    ensures ok <==> IsDomain(domain)
  {
    JoinedIsSegmented(domain);
    if |domain| == 0 || |domain| > MAX_DOMAIN_LEN { return false; }
    var labelStart, i := 0, 0;
    while true
      invariant labelStart <= i <= |domain| && (labelStart == 0 || domain[labelStart - 1] == DOT)
      invariant Dotless(domain, labelStart, i) && LabelsBefore(domain, labelStart)
      decreases |domain| - i
    {
      if i == |domain| || domain[i] == DOT {
        var valid := IsCanonicalLabelBytes(domain, labelStart, i);
        assert IsSegment(domain, labelStart, i);
        if !valid { return false; }
        OneSegmentMore(domain, labelStart, i);
        if i == |domain| { return true; }
        labelStart := i + 1;
      }
      i := i + 1;
    }
  }

  /** The only segment that ends between one label's start and its end is that label. */
  lemma OneSegmentMore(s: seq<int>, start: nat, end: nat)
    requires IsSegment(s, start, end) && LabelsBefore(s, start) && IsLabel(s[start..end])
    ensures LabelsBefore(s, end + 1)
  {
    forall i: nat, j: nat | IsSegment(s, i, j) && j < end + 1 ensures IsLabel(s[i..j]) {
      if j >= start { SameSegment(s, start, end, i, j); }
    }
  }

  lemma SameSegment(s: seq<int>, start: nat, end: nat, i: nat, j: nat)
    requires IsSegment(s, start, end) && IsSegment(s, i, j) && start <= j <= end
    ensures i == start && j == end
  {
  }

  // ----- UTF-8 -----------------------------------------------------------------------------------------

  predicate IsHigh(u: int) { 0xD800 <= u < 0xDC00 }
  predicate IsLow(u: int) { 0xDC00 <= u < 0xE000 }

  function PairedPoint(high: int, low: int): (c: nat)
    requires IsHigh(high) && IsLow(low)
    ensures 0x10000 <= c < 0x110000
  {
    0x10000 + (high - 0xD800) * 1024 + (low - 0xDC00)
  }

  /** One code point in UTF-8 (section 3 of RFC 3629). */
  function EncodePoint(c: nat): (bytes: seq<Byte>)
    requires c < 0x110000
    ensures bytes != []
    ensures c < 128 ==> bytes == [c]
    ensures c >= 128 ==> forall k | 0 <= k < |bytes| :: bytes[k] >= 128
  {
    if c < 0x80 then [c]
    else if c < 0x800 then [0xC0 + c / 64, 0x80 + c % 64]
    else if c < 0x10000 then [0xE0 + c / 4096, 0x80 + c / 64 % 64, 0x80 + c % 64]
    else [0xF0 + c / 262144, 0x80 + c / 4096 % 64, 0x80 + c / 64 % 64, 0x80 + c % 64]
  }

  /** A JavaScript string as bytes; a lone surrogate becomes U+FFFD. */
  function Utf8(s: Text): seq<Byte> {
    if s == [] then []
    else if |s| > 1 && IsHigh(s[0]) && IsLow(s[1]) then
      EncodePoint(PairedPoint(s[0], s[1])) + Utf8(s[2..])
    else EncodePoint(if IsHigh(s[0]) || IsLow(s[0]) then 0xFFFD else s[0]) + Utf8(s[1..])
  }

  predicate IsAscii(s: seq<int>) {
    forall k | 0 <= k < |s| :: s[k] < 128
  }

  lemma {:induction false} AsciiIsItself(s: Text)
    ensures IsAscii(s) ==> Utf8(s) == s
    ensures !IsAscii(s) ==> !IsAscii(Utf8(s))
    decreases |s|
  {
    if s != [] {
      if |s| > 1 && IsHigh(s[0]) && IsLow(s[1]) {
        assert Utf8(s)[0] >= 128;
      } else if s[0] >= 128 {
        assert Utf8(s)[0] >= 128;
      } else {
        AsciiIsItself(s[1..]);
        assert s == [s[0]] + s[1..] && Utf8(s) == [s[0]] + Utf8(s[1..]);
        if !IsAscii(s) {
          var k :| 0 <= k < |s| && s[k] >= 128;
          assert s[1..][k - 1] >= 128;
          var n :| 0 <= n < |Utf8(s[1..])| && Utf8(s[1..])[n] >= 128;
          assert Utf8(s)[n + 1] >= 128;
        }
      }
    }
  }

  lemma {:induction false} JoinsAreAscii(labels: seq<seq<int>>)
    requires forall l | l in labels :: IsLabel(l)
    ensures IsAscii(Join(labels))
    ensures forall c :: c in Join(labels) ==> IsAlnum(c) || c == HYPHEN || c == DOT
  {
    if labels != [] {
      assert labels[0] in labels;
      assert forall l | l in labels[1..] :: l in labels;
      JoinsAreAscii(labels[1..]);
    }
  }

  // ----- The mirror -------------------------------------------------------------------------------------

  /** The mirror's label check. */
  method IsCanonicalLabelText(s: Text, start: nat, end: nat) returns (ok: bool)
    requires start <= end <= |s|
    ensures ok <==> IsLabel(s[start..end])
  {
    ghost var part := s[start..end];
    if start == end { return false; }
    assert part[0] == s[start] && part[|part| - 1] == s[end - 1];
    if !IsAlnum(s[start]) || !IsAlnum(s[end - 1]) { return false; }
    for i := start to end
      invariant forall k | 0 <= k < i - start :: IsAlnum(part[k]) || part[k] == HYPHEN
    {
      assert part[i - start] == s[i];
      if !IsAlnum(s[i]) && s[i] != HYPHEN { return false; }
    }
    ok := true;
  }

  /** The mirror's walk, over code units but with its length in bytes: it accepts a string exactly
      when the contract accepts its bytes. */
  method IsCanonicalDomainText(domain: Text) returns (ok: bool)
    ensures ok <==> IsDomain(Utf8(domain))
  {
    BothReadTheSame(domain);
    var bytes := |Utf8(domain)|;
    if bytes == 0 || bytes > MAX_DOMAIN_LEN { return false; }
    var labelStart := 0;
    for i := 0 to |domain| + 1
      invariant labelStart <= i
      invariant i <= |domain| ==> (labelStart == 0 || domain[labelStart - 1] == DOT) && Dotless(domain, labelStart, i)
      invariant LabelsBefore(domain, if i <= |domain| then labelStart else |domain| + 1)
    {
      if i == |domain| || domain[i] == DOT {
        var valid := IsCanonicalLabelText(domain, labelStart, i);
        assert IsSegment(domain, labelStart, i);
        if !valid { return false; }
        OneSegmentMore(domain, labelStart, i);
        labelStart := i + 1;
      }
    }
    ok := true;
  }

  /** Read as units or as bytes, a string is the same domain or none. */
  lemma BothReadTheSame(s: Text)
    ensures IsJoined(Utf8(s)) <==> s != [] && AllLabels(s)
    ensures |Utf8(s)| == 0 <==> s == []
  {
    AsciiIsItself(s);
    JoinedIsSegmented(s);
    AsciiOrNot(s);
    AsciiOrNot(Utf8(s));
  }

  lemma AsciiOrNot(s: seq<int>)
    ensures IsJoined(s) ==> IsAscii(s)
  {
    if IsJoined(s) {
      var labels: seq<seq<int>> :| labels != [] && (forall l | l in labels :: IsLabel(l)) && Join(labels) == s;
      JoinsAreAscii(labels);
    }
  }

  // ----- One spelling ---------------------------------------------------------------------------------

  function LowerByte(c: Byte): Byte {
    if IsUpperAlpha(c) then c + 32 else c
  }

  function Lower(s: seq<Byte>): seq<Byte> {
    seq(|s|, i requires 0 <= i < |s| => LowerByte(s[i]))
  }

  /** No two domains that may be attested differ only by case, and none is another with a dot
      added at the end. */
  lemma OneSpelling(a: seq<Byte>, b: seq<Byte>)
    requires IsDomain(a) && IsDomain(b)
    ensures Lower(a) == Lower(b) ==> a == b
    ensures a != b + [DOT]
  {
    var as': seq<seq<int>>, bs: seq<seq<int>> :|
      as' != [] && (forall l | l in as' :: IsLabel(l)) && Join(as') == a
      && bs != [] && (forall l | l in bs :: IsLabel(l)) && Join(bs) == b;
    JoinsAreAscii(as');
    JoinsAreAscii(bs);
    LowerIsItself(a);
    LowerIsItself(b);
    EndsInALabel(as');
  }

  lemma LowerIsItself(s: seq<Byte>)
    requires forall c :: c in s ==> IsAlnum(c) || c == HYPHEN || c == DOT
    ensures Lower(s) == s
  {
    forall i | 0 <= i < |s| ensures Lower(s)[i] == s[i] { assert s[i] in s; }
  }

  lemma {:induction false} EndsInALabel(labels: seq<seq<int>>)
    requires labels != [] && forall l | l in labels :: IsLabel(l)
    ensures Join(labels) != [] && Join(labels)[|Join(labels)| - 1] != DOT
  {
    assert labels[0] in labels;
    if |labels| > 1 {
      assert forall l | l in labels[1..] :: l in labels;
      EndsInALabel(labels[1..]);
    }
  }
}
