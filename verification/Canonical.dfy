/**
 * The canonical serializer behind manifest pinning (packages/manifest/src/index.ts).
 *
 * A resumed payment trusts the stored hash of the manifest it started under, so the
 * text that is hashed has to be the same exactly when the manifest is the same.
 * `CanonicalJson` is the printer; `SameTextIffSameManifest` is the promise.
 */
module Canonical {
  import opened Prelude

  /** One UTF-16 code unit, the element JavaScript strings and their order are made of. */
  type Unit = u: nat | u < 0x10000
  type Text = seq<Unit>

  /**
   * A JavaScript value as the printer sees it. Object entries keep insertion order.
   * `numeral` is what `JSON.stringify` prints for a finite number.
   */
  datatype Json =
    | Undefined
    | Null
    | Bool(b: bool)
    | Num(numeral: Text)
    | Str(s: Text)
    | Arr(items: seq<Json>)
    | Obj(entries: seq<Entry>)

  datatype Entry = Entry(key: Text, value: Json)

  /** The same value with objects read as maps: what "the same manifest" means. */
  datatype View =
    | VNull
    | VBool(b: bool)
    | VNum(numeral: Text)
    | VStr(s: Text)
    | VArr(items: seq<View>)
    | VObj(fields: map<Text, View>)

  // ----- Reading a value as a map ------------------------------------------

  predicate NumeralUnit(u: Unit) {
    48 <= u <= 57 || u == 45 || u == 43 || u == 46 || u == 101  // 0-9 - + . e
  }

  predicate Numeral(n: Text) {
    n != [] && (48 <= n[0] <= 57 || n[0] == 45) && forall i | 0 <= i < |n| :: NumeralUnit(n[i])
  }

  predicate DistinctKeys(entries: seq<Entry>) {
    forall i, j | 0 <= i < j < |entries| :: entries[i].key != entries[j].key
  }

  /** A value JavaScript can hold: finite numbers, and objects with one entry per key. */
  ghost predicate WellFormed(v: Json) {
    match v
    case Num(n) => Numeral(n)
    case Arr(items) => forall i | 0 <= i < |items| :: WellFormed(items[i])
    case Obj(entries) =>
      && DistinctKeys(entries)
      && forall i | 0 <= i < |entries| :: WellFormed(entries[i].value)
    case _ => true
  }

  /** Keys whose value is not undefined: the ones the printer keeps. */
  ghost function KeptKeys(entries: seq<Entry>): set<Text> {
    set i | 0 <= i < |entries| && entries[i].value != Undefined :: entries[i].key
  }

  ghost predicate At(entries: seq<Entry>, i: int, key: Text) {
    0 <= i < |entries| && entries[i].key == key && entries[i].value != Undefined
  }

  /** Where a kept key sits. */
  ghost function IndexOf(entries: seq<Entry>, key: Text): (i: nat)
    requires key in KeptKeys(entries)
    ensures At(entries, i, key)
  {
    assert exists i :: At(entries, i, key) by {
      var n :| 0 <= n < |entries| && entries[n].value != Undefined && entries[n].key == key;
      assert At(entries, n, key);
    }
    var i :| At(entries, i, key);
    i
  }

  /** Undefined array items read as null; undefined properties are not there. */
  ghost function ViewOf(v: Json): View {
    match v
    case Undefined => VNull
    case Null => VNull
    case Bool(b) => VBool(b)
    case Num(n) => VNum(n)
    case Str(s) => VStr(s)
    case Arr(items) => VArr(seq(|items|, i requires 0 <= i < |items| => ViewOf(items[i])))
    case Obj(entries) =>
      VObj(map k | k in KeptKeys(entries) :: ViewOf(entries[IndexOf(entries, k)].value))
  }

  // ----- Key order -----------------------------------------------------------

  /** JavaScript's default string order: lexicographic on code units. */
  predicate Before(a: Text, b: Text) {
    if b == [] then false
    else if a == [] then true
    else a[0] < b[0] || (a[0] == b[0] && Before(a[1..], b[1..]))
  }

  lemma {:induction false} BeforeIsTotal(a: Text, b: Text)
    ensures a == b || Before(a, b) || Before(b, a)
    ensures !(Before(a, b) && Before(b, a)) && !Before(a, a)
  {
    if a != [] && b != [] {
      BeforeIsTotal(a[1..], b[1..]);
      assert a == [a[0]] + a[1..] && b == [b[0]] + b[1..];
    }
    if a != [] { BeforeIsTotal(a[1..], a[1..]); }
  }

  lemma {:induction false} BeforeIsTransitive(a: Text, b: Text, c: Text)
    requires Before(a, b) && Before(b, c)
    ensures Before(a, c)
  {
    if a != [] && a[0] == b[0] == c[0] {
      BeforeIsTransitive(a[1..], b[1..], c[1..]);
    }
  }

  ghost predicate Ascending(keys: seq<Text>) {
    forall i, j | 0 <= i < j < |keys| :: Before(keys[i], keys[j])
  }

  ghost function Elements(keys: seq<Text>): set<Text> {
    set k | k in keys
  }

  lemma {:induction false} LeastExists(keys: set<Text>) returns (k: Text)
    requires keys != {}
    ensures k in keys && forall j | j in keys && j != k :: Before(k, j)
  {
    k :| k in keys;
    if keys != {k} {
      var least := LeastExists(keys - {k});
      BeforeIsTotal(k, least);
      if Before(least, k) {
        k := least;
      } else {
        forall j | j in keys && j != k ensures Before(k, j) {
          if j != least { BeforeIsTransitive(k, least, j); }
        }
      }
    }
  }

  /** The keys of a map in the order the printer visits them. */
  ghost function Sorted(keys: set<Text>): (r: seq<Text>)
    ensures Elements(r) == keys
    ensures Ascending(r)
  {
    if keys == {} then []
    else
      var k := (var least := LeastWitness(keys); least);
      var rest := Sorted(keys - {k});
      assert Elements([k] + rest) == {k} + Elements(rest);
      [k] + rest
  }

  ghost function LeastWitness(keys: set<Text>): (k: Text)
    requires keys != {}
    ensures k in keys && forall j | j in keys && j != k :: Before(k, j)
  {
    assert exists k :: k in keys && forall j | j in keys && j != k :: Before(k, j) by {
      var k := LeastExists(keys);
    }
    var k :| k in keys && forall j | j in keys && j != k :: Before(k, j);
    k
  }

  /** An ascending list is determined by its elements. */
  lemma {:induction false} AscendingIsUnique(a: seq<Text>, b: seq<Text>)
    requires Ascending(a) && Ascending(b) && Elements(a) == Elements(b)
    ensures a == b
  {
    assert b != [] ==> b[0] in Elements(b);
    if a != [] {
      assert a[0] in Elements(a);
      var j :| 0 <= j < |b| && b[j] == a[0];
      assert b[0] in Elements(a);
      var i :| 0 <= i < |a| && a[i] == b[0];
      BeforeIsTotal(a[0], b[0]);
      assert a[0] == b[0];
      forall k ensures k in Elements(a[1..]) <==> k in Elements(b[1..]) {
        BeforeIsTotal(a[0], a[0]);
        assert k in Elements(a) <==> k == a[0] || k in a[1..];
        assert k in Elements(b) <==> k == b[0] || k in b[1..];
      }
      AscendingIsUnique(a[1..], b[1..]);
      assert a == [a[0]] + a[1..] && b == [b[0]] + b[1..];
    }
  }

  // ----- String quoting (section 7 of RFC 8259, as JSON.stringify applies it) --

  predicate Lead(u: Unit) { 0xD800 <= u <= 0xDBFF }
  predicate Trail(u: Unit) { 0xDC00 <= u <= 0xDFFF }

  /** A surrogate that is not half of a pair is escaped, a paired one is not. */
  predicate Lone(s: Text, i: nat)
    requires i < |s|
  {
    || (Lead(s[i]) && !(i + 1 < |s| && Trail(s[i + 1])))
    || (Trail(s[i]) && !(i > 0 && Lead(s[i - 1])))
  }

  function HexDigit(n: nat): Unit
    requires n < 16
  {
    if n < 10 then 48 + n else 87 + n
  }

  /** The text one code unit becomes inside quotes. */
  function Escape(u: Unit, lone: bool): (t: Text)
    ensures t != [] && t[0] != 34
  {
    if u == 34 then [92, 34]
    else if u == 92 then [92, 92]
    else if u == 8 then [92, 98]
    else if u == 9 then [92, 116]
    else if u == 10 then [92, 110]
    else if u == 12 then [92, 102]
    else if u == 13 then [92, 114]
    else if u < 32 || lone then
      [92, 117, HexDigit(u / 4096), HexDigit(u / 256 % 16), HexDigit(u / 16 % 16), HexDigit(u % 16)]
    else [u]
  }

  function EscapeFrom(s: Text, i: nat): Text
    requires i <= |s|
    decreases |s| - i
  {
    if i == |s| then [] else Escape(s[i], Lone(s, i)) + EscapeFrom(s, i + 1)
  }

  function Quote(s: Text): Text {
    [34] + EscapeFrom(s, 0) + [34]
  }

  lemma HexIsInjective(u: Unit, v: Unit)
    requires u / 4096 == v / 4096 && u / 256 % 16 == v / 256 % 16
    requires u / 16 % 16 == v / 16 % 16 && u % 16 == v % 16
    ensures u == v
  {
    FourDigits(u);
    FourDigits(v);
  }

  lemma FourDigits(u: Unit)
    ensures u == u / 4096 * 4096 + u / 256 % 16 * 256 + u / 16 % 16 * 16 + u % 16
  {
    var a, b := u / 16, u / 256;
    assert b == a / 16 && u / 4096 == b / 16;
    assert u == a * 16 + u % 16 && a == b * 16 + a % 16 && b == b / 16 * 16 + b % 16;
  }

  /** The text of a code unit tells the code unit, and no such text begins another. */
  lemma EscapeIsPrefixFree(u: Unit, lone: bool, v: Unit, lone': bool, x: Text, y: Text)
    requires Escape(u, lone) + x == Escape(v, lone') + y
    ensures u == v && x == y
  {
    var a, b := Escape(u, lone), Escape(v, lone');
    var both := a + x;
    assert both[0] == a[0] == b[0];
    if |a| > 1 && |b| > 1 {
      assert both[1] == a[1] == b[1];
      if |a| == 6 && |b| == 6 {
        assert both[2] == a[2] == b[2] && both[3] == a[3] == b[3];
        assert both[4] == a[4] == b[4] && both[5] == a[5] == b[5];
        HexIsInjective(u, v);
      }
    }
    assert u == v && |a| == |b|;
    assert x == both[|a|..] && y == both[|b|..];
  }

  lemma StripEscape(s: Text, i: nat, x: Text)
    requires i < |s|
    ensures EscapeFrom(s, i) + ([34] + x)
         == Escape(s[i], Lone(s, i)) + (EscapeFrom(s, i + 1) + ([34] + x))
  {
  }

  lemma QuotesEndTogether(s: Text, i: nat, t: Text, j: nat, x: Text, y: Text)
    requires i <= |s| && j <= |t|
    requires EscapeFrom(s, i) + ([34] + x) == EscapeFrom(t, j) + ([34] + y)
    ensures i == |s| <==> j == |t|
    ensures i == |s| ==> x == y
  {
    var left, right := EscapeFrom(s, i) + ([34] + x), EscapeFrom(t, j) + ([34] + y);
    assert i < |s| ==> left[0] == Escape(s[i], Lone(s, i))[0];
    assert j < |t| ==> right[0] == Escape(t[j], Lone(t, j))[0];
    if i == |s| && j == |t| {
      assert x == left[1..] && y == right[1..];
    }
  }

  lemma QuotesStepTogether(s: Text, i: nat, t: Text, j: nat, x: Text, y: Text)
    requires i < |s| && j < |t|
    requires EscapeFrom(s, i) + ([34] + x) == EscapeFrom(t, j) + ([34] + y)
    ensures s[i] == t[j] && EscapeFrom(s, i + 1) + ([34] + x) == EscapeFrom(t, j + 1) + ([34] + y)
  {
    StripEscape(s, i, x);
    StripEscape(t, j, y);
    var a, b := EscapeFrom(s, i + 1) + ([34] + x), EscapeFrom(t, j + 1) + ([34] + y);
    EscapeIsPrefixFree(s[i], Lone(s, i), t[j], Lone(t, j), a, b);
  }

  lemma {:induction false} QuoteIsPrefixFree(s: Text, i: nat, t: Text, j: nat, x: Text, y: Text)
    requires i <= |s| && j <= |t|
    requires EscapeFrom(s, i) + ([34] + x) == EscapeFrom(t, j) + ([34] + y)
    ensures s[i..] == t[j..] && x == y
    decreases |s| - i
  {
    QuotesEndTogether(s, i, t, j, x, y);
    if i < |s| {
      QuotesStepTogether(s, i, t, j, x, y);
      QuoteIsPrefixFree(s, i + 1, t, j + 1, x, y);
      assert s[i..] == [s[i]] + s[i + 1..] && t[j..] == [t[j]] + t[j + 1..];
    }
  }

  // ----- The reference printer, on views ---------------------------------------

  const NULL: Text := [110, 117, 108, 108]
  const TRUE: Text := [116, 114, 117, 101]
  const FALSE: Text := [102, 97, 108, 115, 101]

  /** Array.prototype.join(","). */
  function Join(parts: seq<Text>): Text {
    if parts == [] then []
    else if |parts| == 1 then parts[0]
    else parts[0] + [44] + Join(parts[1..])
  }

  ghost predicate ValidView(v: View) {
    match v
    case VNum(n) => Numeral(n)
    case VArr(items) => forall i | 0 <= i < |items| :: ValidView(items[i])
    case VObj(fields) => forall k | k in fields :: ValidView(fields[k])
    case _ => true
  }

  ghost function Print(v: View): Text {
    match v
    case VNull => NULL
    case VBool(b) => if b then TRUE else FALSE
    case VNum(n) => n
    case VStr(s) => Quote(s)
    case VArr(items) => [91] + Join(PrintItems(v)) + [93]
    case VObj(fields) => [123] + Join(PrintMembers(v)) + [125]
  }

  ghost function PrintItems(v: View): (parts: seq<Text>)
    requires v.VArr?
    ensures |parts| == |v.items|
    decreases v, 0
  {
    seq(|v.items|, i requires 0 <= i < |v.items| => Print(v.items[i]))
  }

  ghost function PrintMember(v: View, k: Text): Text
    requires v.VObj? && k in v.fields
    decreases v, 0
  {
    Quote(k) + [58] + Print(v.fields[k])
  }

  ghost function PrintMembers(v: View): (parts: seq<Text>)
    requires v.VObj?
    ensures |parts| == |Sorted(v.fields.Keys)|
    decreases v, 1
  {
    var keys := Sorted(v.fields.Keys);
    seq(|keys|, i requires 0 <= i < |keys| =>
      (assert keys[i] in Elements(keys); PrintMember(v, keys[i])))
  }

  /** What may follow a printed value: nothing, or the punctuation that ends it. */
  predicate Delimited(x: Text) {
    x == [] || x[0] == 44 || x[0] == 93 || x[0] == 125
  }

  lemma PrintHead(v: View)
    requires ValidView(v)
    ensures Print(v) != []
    ensures var c := Print(v)[0];
            match v
            case VNull => c == 110
            case VBool(b) => c == (if b then 116 else 102)
            case VNum(_) => NumeralUnit(c)
            case VStr(_) => c == 34
            case VArr(_) => c == 91
            case VObj(_) => c == 123
  {
  }

  lemma {:induction false} NumeralsEndTogether(a: Text, b: Text, x: Text, y: Text)
    requires a + x == b + y && Delimited(x) && Delimited(y)
    requires forall i | 0 <= i < |a| :: NumeralUnit(a[i])
    requires forall i | 0 <= i < |b| :: NumeralUnit(b[i])
    ensures a == b && x == y
  {
    var both := a + x;
    assert forall i | 0 <= i < |a| :: NumeralUnit(both[i]);
    assert forall i | 0 <= i < |b| :: NumeralUnit((b + y)[i]);
    assert x != [] ==> both[|a|] == x[0];
    assert y != [] ==> (b + y)[|b|] == y[0];
    assert |a| == |b|;
    assert a == both[..|a|] && b == both[..|b|];
    assert x == both[|a|..] && y == both[|b|..];
  }

  /** One value of a list, then its comma or the closing bracket `close`. */
  ghost function After(parts: seq<Text>, close: Unit, x: Text): Text {
    if parts == [] then [close] + x else [44] + (Join(parts) + [close] + x)
  }

  lemma Regroup(a: Text, b: Text, c: Text)
    ensures a + b + c == a + (b + c)
  {
  }

  lemma JoinStep(parts: seq<Text>, close: Unit, x: Text)
    requires parts != []
    ensures Join(parts) + [close] + x == parts[0] + After(parts[1..], close, x)
  {
    if |parts| == 1 {
      Regroup(parts[0], [close], x);
    } else {
      var rest := Join(parts[1..]);
      Regroup(parts[0], [44], rest);
      Regroup(parts[0], [44] + rest, [close]);
      Regroup(parts[0], [44] + rest + [close], x);
      Regroup([44], rest, [close]);
      Regroup([44], rest + [close], x);
    }
  }

  /** The printer is injective: no text of one value is the beginning of another's. */
  lemma {:induction false} PrintIsPrefixFree(a: View, b: View, x: Text, y: Text)
    requires ValidView(a) && ValidView(b) && Delimited(x) && Delimited(y)
    requires Print(a) + x == Print(b) + y
    ensures a == b && x == y
    decreases a, 1, 0
  {
    PrintHead(a);
    PrintHead(b);
    var both := Print(a) + x;
    assert both[0] == Print(a)[0] == Print(b)[0];
    match a
    case VNull => assert x == both[4..] && y == both[4..];
    case VBool(t) =>
      assert b == a;
      assert x == both[|Print(a)|..] && y == both[|Print(a)|..];
    case VNum(n) => NumeralsEndTogether(n, b.numeral, x, y);
    case VStr(s) =>
      StripQuote(s, x);
      StripQuote(b.s, y);
      QuoteIsPrefixFree(s, 0, b.s, 0, x, y);
    case VArr(_) =>
      StripOpen(91, Join(PrintItems(a)), 93, x);
      StripOpen(91, Join(PrintItems(b)), 93, y);
      ItemsArePrefixFree(a, b, 0, x, y);
    case VObj(_) =>
      StripOpen(123, Join(PrintMembers(a)), 125, x);
      StripOpen(123, Join(PrintMembers(b)), 125, y);
      MembersArePrefixFree(a, b, 0, x, y);
      SameFieldsSameObject(a, b);
  }

  lemma SameFieldsSameObject(a: View, b: View)
    requires a.VObj? && b.VObj?
    requires SameMembersFrom(a, b, 0)
    ensures a == b
  {
    var ks := Sorted(a.fields.Keys);
    assert ks == Sorted(b.fields.Keys);
    assert Elements(ks) == a.fields.Keys == b.fields.Keys;
    forall k | k in a.fields ensures SameField(a, b, k) {
      assert k in Elements(ks);
      var n :| 0 <= n < |ks| && ks[n] == k;
    }
    assert a.fields == b.fields by {
      assert forall k | k in a.fields :: SameField(a, b, k);
    }
  }

  lemma StripQuote(s: Text, x: Text)
    ensures Quote(s) + x == [34] + (EscapeFrom(s, 0) + ([34] + x))
    ensures (Quote(s) + x)[1..] == EscapeFrom(s, 0) + ([34] + x)
  {
  }

  lemma StripOpen(open: Unit, body: Text, close: Unit, x: Text)
    ensures ([open] + body + [close] + x)[1..] == body + [close] + x
  {
  }

  lemma {:induction false} ItemsArePrefixFree(a: View, b: View, i: nat, x: Text, y: Text)
    requires a.VArr? && b.VArr? && ValidView(a) && ValidView(b)
    requires i <= |a.items| && i <= |b.items|
    requires Join(PrintItems(a)[i..]) + [93] + x == Join(PrintItems(b)[i..]) + [93] + y
    ensures a.items[i..] == b.items[i..] && x == y
    decreases a, 0, |a.items| - i
  {
    var p, q := PrintItems(a)[i..], PrintItems(b)[i..];
    var both := Join(p) + [93] + x;
    if p != [] { JoinStep(p, 93, x); PrintHead(a.items[i]); assert both[0] == p[0][0]; }
    if q != [] { JoinStep(q, 93, y); PrintHead(b.items[i]); assert both[0] == q[0][0]; }
    if p == [] || q == [] {
      assert x == both[1..] && y == both[1..];
    } else {
      var c, d := After(p[1..], 93, x), After(q[1..], 93, y);
      PrintIsPrefixFree(a.items[i], b.items[i], c, d);
      assert p[1..] == PrintItems(a)[i + 1..] && q[1..] == PrintItems(b)[i + 1..];
      SameAfter(p[1..], q[1..], 93, x, y);
      if p[1..] != [] { ItemsArePrefixFree(a, b, i + 1, x, y); }
      assert a.items[i..] == [a.items[i]] + a.items[i + 1..];
      assert b.items[i..] == [b.items[i]] + b.items[i + 1..];
    }
  }

  ghost predicate SameField(a: View, b: View, k: Text)
    requires a.VObj? && b.VObj?
  {
    k in a.fields && k in b.fields && a.fields[k] == b.fields[k]
  }

  ghost predicate SameMembersFrom(a: View, b: View, i: nat)
    requires a.VObj? && b.VObj?
  {
    SameFrom(a, b, Sorted(a.fields.Keys), Sorted(b.fields.Keys), i)
  }

  ghost predicate SameFrom(a: View, b: View, ks: seq<Text>, ls: seq<Text>, i: nat)
    requires a.VObj? && b.VObj?
  {
    |ks| == |ls| && forall n | i <= n < |ks| :: ks[n] == ls[n] && SameField(a, b, ks[n])
  }

  lemma {:induction false} MembersArePrefixFree(a: View, b: View, i: nat, x: Text, y: Text)
    requires a.VObj? && b.VObj? && ValidView(a) && ValidView(b)
    requires i <= |PrintMembers(a)| && i <= |PrintMembers(b)|
    requires Join(PrintMembers(a)[i..]) + [125] + x == Join(PrintMembers(b)[i..]) + [125] + y
    ensures SameMembersFrom(a, b, i) && x == y
    decreases a, 0, |PrintMembers(a)| - i
  {
    MembersBothEnd(a, b, i, x, y);
    if i < |PrintMembers(a)| {
      FirstMember(a, b, i, x, y);
      MembersArePrefixFree(a, b, i + 1, x, y);
      OneMoreMember(a, b, Sorted(a.fields.Keys), Sorted(b.fields.Keys), i);
    } else {
      NoMoreMembers(a, b, Sorted(a.fields.Keys), Sorted(b.fields.Keys), i);
    }
  }

  lemma OneMoreMember(a: View, b: View, ks: seq<Text>, ls: seq<Text>, i: nat)
    requires a.VObj? && b.VObj? && i < |ks| && i < |ls|
    requires ks[i] == ls[i] && SameField(a, b, ks[i]) && SameFrom(a, b, ks, ls, i + 1)
    ensures SameFrom(a, b, ks, ls, i)
  {
  }

  lemma NoMoreMembers(a: View, b: View, ks: seq<Text>, ls: seq<Text>, i: nat)
    requires a.VObj? && b.VObj? && i == |ks| == |ls|
    ensures SameFrom(a, b, ks, ls, i)
  {
  }

  lemma MembersBothEnd(a: View, b: View, i: nat, x: Text, y: Text)
    requires a.VObj? && b.VObj?
    requires i <= |PrintMembers(a)| && i <= |PrintMembers(b)|
    requires Join(PrintMembers(a)[i..]) + [125] + x == Join(PrintMembers(b)[i..]) + [125] + y
    ensures (i == |PrintMembers(a)|) == (i == |PrintMembers(b)|)
    ensures i == |PrintMembers(a)| ==> x == y
  {
    var p, q := PrintMembers(a)[i..], PrintMembers(b)[i..];
    assert p != [] ==> p[0] == PrintMembers(a)[i] && p[0] != [] && p[0][0] == 34;
    assert q != [] ==> q[0] == PrintMembers(b)[i] && q[0] != [] && q[0][0] == 34;
    BothEnd(p, q, 34, 125, x, y);
  }

  /** When every part begins with `head`, equal lists end together. */
  lemma BothEnd(p: seq<Text>, q: seq<Text>, head: Unit, close: Unit, x: Text, y: Text)
    requires Join(p) + [close] + x == Join(q) + [close] + y && head != close
    requires p != [] ==> p[0] != [] && p[0][0] == head
    requires q != [] ==> q[0] != [] && q[0][0] == head
    ensures (p == []) == (q == []) && (p == [] ==> x == y)
  {
    var both := Join(p) + [close] + x;
    if p != [] { JoinStep(p, close, x); assert both[0] == p[0][0]; }
    if q != [] { JoinStep(q, close, y); assert both[0] == q[0][0]; }
    if p == [] && q == [] {
      assert x == both[1..] && y == both[1..];
    }
  }

  lemma {:induction false} FirstMember(a: View, b: View, i: nat, x: Text, y: Text)
    requires a.VObj? && b.VObj? && ValidView(a) && ValidView(b)
    requires i < |PrintMembers(a)| && i < |PrintMembers(b)|
    requires Join(PrintMembers(a)[i..]) + [125] + x == Join(PrintMembers(b)[i..]) + [125] + y
    ensures Sorted(a.fields.Keys)[i] == Sorted(b.fields.Keys)[i]
    ensures SameField(a, b, Sorted(a.fields.Keys)[i])
    ensures Join(PrintMembers(a)[i + 1..]) + [125] + x == Join(PrintMembers(b)[i + 1..]) + [125] + y
    decreases a, 0, 0
  {
    var p, q := PrintMembers(a)[i..], PrintMembers(b)[i..];
    assert p[1..] == PrintMembers(a)[i + 1..] && q[1..] == PrintMembers(b)[i + 1..];
    JoinStep(p, 125, x);
    JoinStep(q, 125, y);
    var k, l := Sorted(a.fields.Keys)[i], Sorted(b.fields.Keys)[i];
    assert k in Elements(Sorted(a.fields.Keys)) && l in Elements(Sorted(b.fields.Keys));
    var c, d := After(p[1..], 125, x), After(q[1..], 125, y);
    SplitMembers(a, k, b, l, c, d);
    PrintIsPrefixFree(a.fields[k], b.fields[l], c, d);
    SameAfter(p[1..], q[1..], 125, x, y);
  }

  /** Equal continuations agree on whether the list ends and on what follows. */
  lemma SameAfter(p: seq<Text>, q: seq<Text>, close: Unit, x: Text, y: Text)
    requires After(p, close, x) == After(q, close, y) && close != 44
    ensures (p == []) == (q == [])
    ensures p == [] ==> x == y
    ensures p != [] ==> Join(p) + [close] + x == Join(q) + [close] + y
  {
    var c, d := After(p, close, x), After(q, close, y);
    assert c[0] == d[0] && c[1..] == d[1..];
    if p == [] {
      assert x == c[1..] && y == d[1..];
    } else {
      assert Join(p) + [close] + x == c[1..] && Join(q) + [close] + y == d[1..];
    }
  }

  /** Two members that begin the same text have the same key. */
  lemma SplitMembers(a: View, k: Text, b: View, l: Text, x: Text, y: Text)
    requires a.VObj? && k in a.fields && b.VObj? && l in b.fields
    requires PrintMember(a, k) + x == PrintMember(b, l) + y
    ensures k == l && Print(a.fields[k]) + x == Print(b.fields[l]) + y
  {
    var v, w := Print(a.fields[k]) + x, Print(b.fields[l]) + y;
    MemberStep(a, k, x);
    MemberStep(b, l, y);
    StripQuote(k, [58] + v);
    StripQuote(l, [58] + w);
    QuoteIsPrefixFree(k, 0, l, 0, [58] + v, [58] + w);
    assert v == ([58] + v)[1..] && w == ([58] + w)[1..];
  }

  lemma MemberStep(v: View, k: Text, x: Text)
    requires v.VObj? && k in v.fields
    ensures PrintMember(v, k) + x == Quote(k) + ([58] + (Print(v.fields[k]) + x))
  {
  }

  // ----- The printer the engine runs -------------------------------------------

  function Insert(k: Text, keys: seq<Text>): (r: seq<Text>) {
    if keys == [] || Before(k, keys[0]) then [k] + keys else [keys[0]] + Insert(k, keys[1..])
  }

  /** `Object.keys(obj).sort()`. */
  function SortedKeys(entries: seq<Entry>): (keys: seq<Text>) {
    if entries == [] then [] else Insert(entries[0].key, SortedKeys(entries[1..]))
  }

  lemma {:induction false} InsertKeepsOrder(k: Text, keys: seq<Text>)
    requires Ascending(keys) && k !in keys
    ensures Ascending(Insert(k, keys)) && Elements(Insert(k, keys)) == {k} + Elements(keys)
  {
    if keys == [] {
      assert Insert(k, keys) == [k];
    } else if Before(k, keys[0]) {
      forall i | 0 <= i < |keys| ensures Before(k, keys[i]) {
        if i > 0 { BeforeIsTransitive(k, keys[0], keys[i]); }
      }
    } else {
      var rest := Insert(k, keys[1..]);
      InsertKeepsOrder(k, keys[1..]);
      BeforeIsTotal(k, keys[0]);
      forall i | 0 <= i < |rest| ensures Before(keys[0], rest[i]) {
        assert rest[i] in Elements(rest);
      }
      assert Elements(keys) == {keys[0]} + Elements(keys[1..]);
      assert Elements([keys[0]] + rest) == {keys[0]} + Elements(rest);
    }
  }

  ghost function AllKeys(entries: seq<Entry>): set<Text> {
    set i | 0 <= i < |entries| :: entries[i].key
  }

  lemma {:induction false} SortedKeysIsSorted(entries: seq<Entry>)
    requires DistinctKeys(entries)
    ensures Ascending(SortedKeys(entries)) && Elements(SortedKeys(entries)) == AllKeys(entries)
  {
    if entries != [] {
      var rest := entries[1..];
      SortedKeysIsSorted(rest);
      assert forall i | 0 <= i < |rest| :: rest[i] == entries[i + 1];
      assert entries[0].key !in SortedKeys(rest) by {
        assert entries[0].key !in AllKeys(rest);
        assert Elements(SortedKeys(rest)) == AllKeys(rest);
      }
      InsertKeepsOrder(entries[0].key, SortedKeys(rest));
      assert AllKeys(entries) == {entries[0].key} + AllKeys(rest);
    }
  }

  /** `obj[key]`. */
  function Property(entries: seq<Entry>, key: Text): (v: Json)
    ensures v.Undefined? || Entry(key, v) in entries
  {
    if entries == [] then Undefined
    else if entries[0].key == key then entries[0].value
    else Property(entries[1..], key)
  }

  lemma {:induction false} PropertyIsTheEntry(entries: seq<Entry>, i: nat)
    requires DistinctKeys(entries) && i < |entries|
    ensures Property(entries, entries[i].key) == entries[i].value
  {
    if i > 0 {
      assert entries[0].key != entries[i].key;
      PropertyIsTheEntry(entries[1..], i - 1);
    }
  }

  ghost predicate IsProperty(entries: seq<Entry>, view: View, key: Text, val: Json) {
    view.VObj? && ((val != Undefined) == (key in view.fields))
    && (key in view.fields ==> view.fields[key] == ViewOf(val))
  }

  lemma ReadProperty(entries: seq<Entry>, key: Text)
    requires DistinctKeys(entries) && key in AllKeys(entries)
    ensures IsProperty(entries, ViewOf(Obj(entries)), key, Property(entries, key))
  {
    var i :| 0 <= i < |entries| && entries[i].key == key;
    PropertyIsTheEntry(entries, i);
    if key in KeptKeys(entries) {
      PropertyIsTheEntry(entries, IndexOf(entries, key));
    }
    assert entries[i].value != Undefined ==> key in KeptKeys(entries);
  }

  ghost function Kept(keys: seq<Text>, fields: set<Text>): (r: seq<Text>)
    ensures forall k | k in r :: k in fields
  {
    if keys == [] then []
    else
      var last := keys[|keys| - 1];
      Kept(keys[..|keys| - 1], fields) + (if last in fields then [last] else [])
  }

  lemma {:induction false} KeptIsSorted(keys: seq<Text>, fields: set<Text>)
    requires Ascending(keys)
    ensures Ascending(Kept(keys, fields)) && Elements(Kept(keys, fields)) == Elements(keys) * fields
    ensures forall k | k in Kept(keys, fields) :: k in keys
  {
    if keys != [] {
      var n := |keys| - 1;
      KeptIsSorted(keys[..n], fields);
      var front, r := Kept(keys[..n], fields), Kept(keys, fields);
      assert Elements(keys) == Elements(keys[..n]) + {keys[n]};
      if keys[n] in fields {
        forall i, j | 0 <= i < j < |r| ensures Before(r[i], r[j]) {
          if j == |front| {
            assert front[i] in keys[..n];
            var m :| 0 <= m < n && keys[m] == front[i];
          }
        }
        assert Elements(r) == Elements(front) + {keys[n]};
      } else {
        assert r == front;
      }
      assert Elements(keys) * fields == Elements(keys[..n]) * fields + {keys[n]} * fields;
    }
  }

  ghost function MemberTexts(v: View, keys: seq<Text>): (parts: seq<Text>)
    requires v.VObj? && forall k | k in keys :: k in v.fields
    ensures |parts| == |keys|
  {
    seq(|keys|, i requires 0 <= i < |keys| => PrintMember(v, keys[i]))
  }

  lemma KeptMembersAreAll(entries: seq<Entry>)
    requires DistinctKeys(entries)
    ensures var v := ViewOf(Obj(entries));
            MemberTexts(v, Kept(SortedKeys(entries), v.fields.Keys)) == PrintMembers(v)
  {
    var v := ViewOf(Obj(entries));
    var keys := SortedKeys(entries);
    SortedKeysIsSorted(entries);
    KeptIsSorted(keys, v.fields.Keys);
    assert v.fields.Keys == KeptKeys(entries) <= AllKeys(entries);
    AscendingIsUnique(Kept(keys, v.fields.Keys), Sorted(v.fields.Keys));
  }

  /** `canonicalJson`: no text for undefined, otherwise the reference text of the value's view. */
  method CanonicalJson(v: Json) returns (t: Option<Text>)
    requires WellFormed(v)
    ensures t == if v.Undefined? then None else Some(Print(ViewOf(v)))
    decreases v
  {
    match v
    case Undefined => t := None;
    case Null => t := Some(NULL);
    case Bool(b) => t := Some(if b then TRUE else FALSE);
    case Num(n) => t := Some(n);
    case Str(s) => t := Some(Quote(s));
    case Arr(items) =>
      var parts: seq<Text> := [];
      ghost var all := PrintItems(ViewOf(v));
      for i := 0 to |items|
        invariant parts == all[..i]
      {
        var part := Some(NULL);
        if items[i] != Undefined { part := CanonicalJson(items[i]); }
        assert all[i] == Print(ViewOf(items[i]));
        parts := parts + [part.value];
      }
      assert parts == all;
      t := Some([91] + Join(parts) + [93]);
    case Obj(entries) =>
      var parts := ObjectParts(entries);
      t := Some([123] + Join(parts) + [125]);
  }

  lemma MemberStepOfLoop(view: View, keys: seq<Text>, i: nat)
    requires view.VObj? && i < |keys|
    ensures var before := MemberTexts(view, Kept(keys[..i], view.fields.Keys));
            MemberTexts(view, Kept(keys[..i + 1], view.fields.Keys))
            == before + (if keys[i] in view.fields then [PrintMember(view, keys[i])] else [])
  {
    assert keys[..i + 1][..i] == keys[..i] && keys[..i + 1][i] == keys[i];
  }

  /** The `entries` loop of `canonicalJson`. */
  method ObjectParts(entries: seq<Entry>) returns (parts: seq<Text>)
    requires WellFormed(Obj(entries))
    ensures parts == PrintMembers(ViewOf(Obj(entries)))
    decreases entries
  {
    var keys := SortedKeys(entries);
    ghost var view := ViewOf(Obj(entries));
    SortedKeysIsSorted(entries);
    parts := [];
    for i := 0 to |keys|
      invariant parts == MemberTexts(view, Kept(keys[..i], view.fields.Keys))
    {
      assert keys[i] in Elements(keys);
      ReadProperty(entries, keys[i]);
      MemberStepOfLoop(view, keys, i);
      var val := Property(entries, keys[i]);
      if val != Undefined {
        assert Entry(keys[i], val) in entries;
        var text := CanonicalJson(val);
        parts := parts + [Quote(keys[i]) + [58] + text.value];
      }
    }
    assert keys[..|keys|] == keys;
    KeptMembersAreAll(entries);
  }

  // ----- The promise --------------------------------------------------------------

  lemma {:induction false} ViewIsValid(v: Json)
    requires WellFormed(v)
    ensures ValidView(ViewOf(v))
  {
    match v
    case Arr(items) =>
      forall i | 0 <= i < |items| ensures ValidView(ViewOf(items[i])) { ViewIsValid(items[i]); }
    case Obj(entries) =>
      forall k | k in KeptKeys(entries) ensures ValidView(ViewOf(entries[IndexOf(entries, k)].value)) {
        ViewIsValid(entries[IndexOf(entries, k)].value);
      }
    case _ =>
  }

  /** The text that is hashed is the same exactly when the values are the same read as maps. */
  lemma SameTextIffSameManifest(a: Json, b: Json)
    requires WellFormed(a) && WellFormed(b)
    ensures Print(ViewOf(a)) == Print(ViewOf(b)) <==> ViewOf(a) == ViewOf(b)
  {
    ViewIsValid(a);
    ViewIsValid(b);
    if Print(ViewOf(a)) == Print(ViewOf(b)) {
      PrintIsPrefixFree(ViewOf(a), ViewOf(b), [], []);
    }
  }

  /** Listing the same entries in another order changes nothing. */
  lemma ReorderingKeysKeepsTheText(a: seq<Entry>, b: seq<Entry>)
    requires DistinctKeys(a) && DistinctKeys(b) && multiset(a) == multiset(b)
    ensures ViewOf(Obj(a)) == ViewOf(Obj(b))
    ensures Print(ViewOf(Obj(a))) == Print(ViewOf(Obj(b)))
  {
    SameEntriesSameKeys(a, b);
    SameEntriesSameKeys(b, a);
    forall k | k in KeptKeys(a)
      ensures a[IndexOf(a, k)].value == b[IndexOf(b, k)].value
    {
      var i := IndexOf(a, k);
      assert a[i] in multiset(a);
      assert a[i] in b;
      var j :| 0 <= j < |b| && b[j] == a[i];
      assert b[IndexOf(b, k)].key == b[j].key;
    }
  }

  lemma SameEntriesSameKeys(a: seq<Entry>, b: seq<Entry>)
    requires multiset(a) == multiset(b)
    ensures KeptKeys(a) <= KeptKeys(b)
  {
    forall k | k in KeptKeys(a) ensures k in KeptKeys(b) {
      var i := IndexOf(a, k);
      assert a[i] in multiset(a);
      assert a[i] in b;
    }
  }

  /** Any edit of one kept property is seen: the texts differ. */
  lemma EveryEditChangesTheText(entries: seq<Entry>, i: nat, edited: Json)
    requires WellFormed(Obj(entries)) && WellFormed(edited) && i < |entries|
    requires entries[i].value != Undefined && ViewOf(edited) != ViewOf(entries[i].value)
    ensures var after := entries[i := Entry(entries[i].key, edited)];
            Print(ViewOf(Obj(entries))) != Print(ViewOf(Obj(after)))
  {
    var after := entries[i := Entry(entries[i].key, edited)];
    var key := entries[i].key;
    assert DistinctKeys(after) && WellFormed(Obj(after));
    assert key in KeptKeys(entries);
    assert IndexOf(entries, key) == i;
    var before, now := ViewOf(Obj(entries)), ViewOf(Obj(after));
    assert before.fields[key] == ViewOf(entries[i].value);
    assert key in now.fields ==> IndexOf(after, key) == i;
    assert before != now;
    SameTextIffSameManifest(Obj(entries), Obj(after));
  }
}
