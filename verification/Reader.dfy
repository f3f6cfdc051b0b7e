/**
 * A reader for the texts `canonicalJson` prints: JSON as RFC 8259 writes it, with the strings
 * spelled the way `JSON.stringify` spells them and nothing else accepted. What the printer prints
 * reads back as the value it was printed from.
 */
module Reader {
  import opened Prelude
  import opened Canonical

  /** A JSON text as read: members in the order of the text. */
  datatype Doc =
    | DNull
    | DBool(b: bool)
    | DNum(numeral: Text)
    | DStr(s: Text)
    | DArr(items: seq<Doc>)
    | DObj(members: seq<Member>)

  datatype Member = Member(key: Text, value: Doc)

  datatype Read<T> = Got(value: T, rest: Text) | Bad

  function Ascii(s: string): (t: Text)
    requires forall i | 0 <= i < |s| :: s[i] < '\U{80}'
    ensures |t| == |s| && forall i | 0 <= i < |s| :: t[i] == s[i] as int
  {
    seq(|s|, i requires 0 <= i < |s| => s[i] as int)
  }

  predicate Begins(t: Text, c: char) {
    t != [] && t[0] == c as int
  }

  // ----- Strings -------------------------------------------------------------------------------

  /** The two-character escapes (section 7 of RFC 8259) that `JSON.stringify` uses. */
  function ShortEscape(c: Unit): Option<Unit> {
    if c == '"' as int then Some(0x22)
    else if c == '\\' as int then Some(0x5C)
    else if c == 'b' as int then Some(0x08)
    else if c == 'f' as int then Some(0x0C)
    else if c == 'n' as int then Some(0x0A)
    else if c == 'r' as int then Some(0x0D)
    else if c == 't' as int then Some(0x09)
    else None
  }

  predicate HasShortEscape(u: Unit) {
    u in {0x22, 0x5C, 0x08, 0x0C, 0x0A, 0x0D, 0x09}
  }

  function HexValue(c: Unit): Option<nat> {
    if '0' as int <= c <= '9' as int then Some(c - '0' as int)
    else if 'a' as int <= c <= 'f' as int then Some(c - 'a' as int + 10)
    else None
  }

  /** The code unit behind `\u` and four lower-case hexadecimal digits. */
  function HexUnit(t: Text): Option<Unit>
    requires |t| >= 4
  {
    var a, b, c, d := HexValue(t[0]), HexValue(t[1]), HexValue(t[2]), HexValue(t[3]);
    if a.Some? && b.Some? && c.Some? && d.Some? && a.value < 16 && b.value < 16 && c.value < 16 && d.value < 16 then
      Some(a.value * 4096 + b.value * 256 + c.value * 16 + d.value)
    else None
  }

  /** Whether a unit between these two is spelled with `\u`: a control character, or a surrogate that is not
      half of a pair. */
  predicate SpelledInHex(u: Unit, prev: Unit, next: Unit) {
    if 0xD800 <= u < 0xDC00 then !(0xDC00 <= next < 0xE000)
    else if 0xDC00 <= u < 0xE000 then !(0xD800 <= prev < 0xDC00)
    else u < 0x20
  }

  function First(s: Text): Unit {
    if s == [] then 0 else s[0]
  }

  /** One more unit in front of what follows, if that is how it is spelled. */
  function Prepend(u: Unit, prev: Unit, hex: bool, short: bool, after: Read<Text>): (r: Read<Text>)
    ensures r.Got? ==> after.Got? && r.rest == after.rest
  {
    if after.Bad? then Bad
    else if short then Got([u] + after.value, after.rest)
    else if HasShortEscape(u) || hex != SpelledInHex(u, prev, First(after.value)) then Bad
    else Got([u] + after.value, after.rest)
  }

  /** The rest of a string after its opening quote, or after `prev`. */
  function ReadString(t: Text, prev: Unit): (r: Read<Text>)
    ensures r.Got? ==> |r.rest| < |t|
    decreases |t|
  {
    if t == [] then Bad
    else if Begins(t, '"') then Got([], t[1..])
    else if !Begins(t, '\\') then Prepend(t[0], prev, false, false, ReadString(t[1..], t[0]))
    else if |t| < 2 then Bad
    else if t[1] == 'u' as int then
      if |t| < 6 || HexUnit(t[2..6]).None? then Bad
      else
        var u := HexUnit(t[2..6]).value;
        Prepend(u, prev, true, false, ReadString(t[6..], u))
    else if ShortEscape(t[1]).None? then Bad
    else Prepend(ShortEscape(t[1]).value, prev, false, true, ReadString(t[2..], ShortEscape(t[1]).value))
  }

  lemma HexDigitsRead(n: nat)
    requires n < 16
    ensures HexValue(HexDigit(n)) == Some(n)
  {
  }

  lemma HexReads(u: Unit)
    ensures HexUnit([HexDigit(u / 4096), HexDigit(u / 256 % 16), HexDigit(u / 16 % 16), HexDigit(u % 16)]) == Some(u)
  {
    HexDigitsRead(u / 4096);
    HexDigitsRead(u / 256 % 16);
    HexDigitsRead(u / 16 % 16);
    HexDigitsRead(u % 16);
    FourDigits(u);
  }

  /** What was escaped reads back. */
  lemma EscapeReads(u: Unit, lone: bool, prev: Unit, after: Text, x: Text, rest: Text)
    requires lone ==> 0xD800 <= u < 0xE000
    requires ReadString(x, u) == Got(after, rest)
    requires 0xD800 <= u < 0xE000 ==> lone == SpelledInHex(u, prev, First(after))
    ensures ReadString(Escape(u, lone) + x, prev) == Got([u] + after, rest)
  {
    var e := Escape(u, lone);
    var t := e + x;
    if |e| == 6 {
      HexReads(u);
      assert t[2..6] == e[2..6] == [e[2], e[3], e[4], e[5]];
      assert t[6..] == x;
    } else if |e| == 2 {
      assert t[2..] == x;
    } else {
      assert t[1..] == x;
    }
  }

  lemma {:induction false} StringReadsBack(s: Text, i: nat, x: Text)
    requires i <= |s|
    ensures ReadString(EscapeFrom(s, i) + ([34] + x), if i > 0 then s[i - 1] else 0) == Got(s[i..], x)
    decreases |s| - i
  {
    if i == |s| {
      assert EscapeFrom(s, i) + ([34] + x) == [34] + x;
      assert ([34] + x)[1..] == x;
    } else {
      StringReadsBack(s, i + 1, x);
      StripEscape(s, i, x);
      EscapeReads(s[i], Lone(s, i), if i > 0 then s[i - 1] else 0, s[i + 1..], EscapeFrom(s, i + 1) + ([34] + x), x);
      assert s[i..] == [s[i]] + s[i + 1..];
    }
  }

  // ----- Values ----------------------------------------------------------------------------------

  /** The longest beginning that a number can be made of. */
  function NumeralEnd(t: Text): (n: nat)
    ensures n <= |t|
  {
    if t == [] || !NumeralUnit(t[0]) then 0 else 1 + NumeralEnd(t[1..])
  }

  function ReadWord(t: Text, word: string, doc: Doc): (r: Read<Doc>)
    requires word != "" && forall i | 0 <= i < |word| :: word[i] < '\U{80}'
    ensures r.Got? ==> |r.rest| < |t|
  {
    if Ascii(word) <= t then Got(doc, t[|word|..]) else Bad
  }

  function ReadValue(t: Text): (r: Read<Doc>)
    ensures r.Got? ==> |r.rest| < |t|
    decreases |t|, 1
  {
    if Begins(t, 'n') then ReadWord(t, "null", DNull)
    else if Begins(t, 't') then ReadWord(t, "true", DBool(true))
    else if Begins(t, 'f') then ReadWord(t, "false", DBool(false))
    else if Begins(t, '"') then
      var s := ReadString(t[1..], 0);
      if s.Got? then Got(DStr(s.value), s.rest) else Bad
    else if Begins(t, '[') then
      if Begins(t[1..], ']') then Got(DArr([]), t[2..])
      else
        var items := ReadItems(t[1..]);
        if items.Got? then Got(DArr(items.value), items.rest) else Bad
    else if Begins(t, '{') then
      if Begins(t[1..], '}') then Got(DObj([]), t[2..])
      else
        var members := ReadMembers(t[1..]);
        if members.Got? then Got(DObj(members.value), members.rest) else Bad
    else
      var n := NumeralEnd(t);
      if n > 0 then Got(DNum(t[..n]), t[n..]) else Bad
  }

  /** Values up to the bracket that closes their list. */
  function ReadItems(t: Text): (r: Read<seq<Doc>>)
    ensures r.Got? ==> |r.rest| < |t|
    decreases |t|, 2
  {
    var v := ReadValue(t);
    if v.Bad? then Bad
    else if Begins(v.rest, ']') then Got([v.value], v.rest[1..])
    else if Begins(v.rest, ',') then
      var more := ReadItems(v.rest[1..]);
      if more.Got? then Got([v.value] + more.value, more.rest) else Bad
    else Bad
  }

  function ReadMember(t: Text): (r: Read<Member>)
    ensures r.Got? ==> |r.rest| < |t|
    decreases |t|, 2
  {
    if !Begins(t, '"') then Bad
    else
      var key := ReadString(t[1..], 0);
      if key.Bad? || !Begins(key.rest, ':') then Bad
      else
        var v := ReadValue(key.rest[1..]);
        if v.Got? then Got(Member(key.value, v.value), v.rest) else Bad
  }

  /** Members up to the brace that closes their object. */
  function ReadMembers(t: Text): (r: Read<seq<Member>>)
    ensures r.Got? ==> |r.rest| < |t|
    decreases |t|, 3
  {
    var m := ReadMember(t);
    if m.Bad? then Bad
    else if Begins(m.rest, '}') then Got([m.value], m.rest[1..])
    else if Begins(m.rest, ',') then
      var more := ReadMembers(m.rest[1..]);
      if more.Got? then Got([m.value] + more.value, more.rest) else Bad
    else Bad
  }

  // ----- What is read is what was printed -----------------------------------------------------------

  /** A value as its canonical text lists it: every object's members in ascending order of their keys. */
  ghost function DocOf(v: View): Doc {
    match v
    case VNull => DNull
    case VBool(b) => DBool(b)
    case VNum(n) => DNum(n)
    case VStr(s) => DStr(s)
    case VArr(items) => DArr(seq(|items|, i requires 0 <= i < |items| => DocOf(items[i])))
    case VObj(fields) =>
      var keys := Sorted(fields.Keys);
      DObj(seq(|keys|, i requires 0 <= i < |keys| =>
        (assert keys[i] in Elements(keys); Member(keys[i], DocOf(fields[keys[i]])))))
  }

  /** The printed text of a value, whatever delimiter follows it, reads back as that value. */
  lemma {:induction false} ReadsBack(v: View, x: Text)
    requires ValidView(v) && Delimited(x)
    ensures ReadValue(Print(v) + x) == Got(DocOf(v), x)
    decreases v, 2, 0
  {
    var t := Print(v) + x;
    match v
    case VNull => WordReadsBack("null", NULL, x);
    case VBool(b) => if b { WordReadsBack("true", TRUE, x); } else { WordReadsBack("false", FALSE, x); }
    case VNum(n) => NumeralReadsBack(n, x);
    case VStr(s) =>
      StripQuote(s, x);
      StringReadsBack(s, 0, x);
    case VArr(items) => ListReadsBack(v, x);
    case VObj(fields) => ObjectReadsBack(v, x);
  }

  lemma WordReadsBack(word: string, t: Text, x: Text)
    requires word != "" && forall i | 0 <= i < |word| :: word[i] < '\U{80}'
    requires t == Ascii(word)
    ensures Begins(t + x, word[0]) && forall doc :: ReadWord(t + x, word, doc) == Got(doc, x)
  {
    assert (t + x)[..|word|] == t && (t + x)[|word|..] == x;
  }

  lemma {:induction false} NumeralEndsThere(n: Text, x: Text)
    requires Delimited(x) && forall i | 0 <= i < |n| :: NumeralUnit(n[i])
    ensures NumeralEnd(n + x) == |n|
  {
    if n != [] {
      NumeralEndsThere(n[1..], x);
      assert (n + x)[1..] == n[1..] + x;
    }
  }

  lemma NumeralReadsBack(n: Text, x: Text)
    requires Numeral(n) && Delimited(x)
    ensures ReadValue(n + x) == Got(DNum(n), x)
  {
    NumeralEndsThere(n, x);
    var t := n + x;
    assert t[..|n|] == n && t[|n|..] == x && t[0] == n[0];
  }

  /** A list is its bracket and the items after it. */
  lemma ReadList(body: Text)
    ensures ReadValue([91] + body) ==
            if Begins(body, ']') then Got(DArr([]), body[1..])
            else if ReadItems(body).Got? then Got(DArr(ReadItems(body).value), ReadItems(body).rest) else Bad
  {
    var t := [91] + body;
    assert t[1..] == body && (body != [] ==> t[2..] == body[1..]);
  }

  lemma ReadObject(body: Text)
    ensures ReadValue([123] + body) ==
            if Begins(body, '}') then Got(DObj([]), body[1..])
            else if ReadMembers(body).Got? then Got(DObj(ReadMembers(body).value), ReadMembers(body).rest) else Bad
  {
    var t := [123] + body;
    assert t[1..] == body && (body != [] ==> t[2..] == body[1..]);
  }

  lemma Bracketed(open: Unit, body: Text, close: Unit, x: Text)
    ensures [open] + body + [close] + x == [open] + (body + [close] + x)
  {
  }

  /** The text of a list does not begin with its closing bracket, unless it is empty. */
  lemma BodyBegins(parts: seq<Text>, close: Unit, x: Text)
    requires parts != [] ==> parts[0] != []
    ensures var body := Join(parts) + [close] + x;
            body != [] && body[0] == (if parts == [] then close else parts[0][0])
            && (parts == [] ==> body[1..] == x)
  {
    if parts != [] { JoinStep(parts, close, x); }
  }

  lemma {:induction false} ListReadsBack(v: View, x: Text)
    requires v.VArr? && ValidView(v)
    ensures ReadValue(Print(v) + x) == Got(DocOf(v), x)
    decreases v, 1, 0
  {
    var parts := PrintItems(v);
    if v.items != [] { PrintHead(v.items[0]); }
    BodyBegins(parts, 93, x);
    Bracketed(91, Join(parts), 93, x);
    ReadList(Join(parts) + [93] + x);
    if v.items != [] {
      assert parts[0..] == parts && DocOf(v).items[0..] == DocOf(v).items;
      ItemsReadBack(v, 0, x);
    }
  }

  lemma {:induction false} ItemsReadBack(v: View, i: nat, x: Text)
    requires v.VArr? && ValidView(v) && i < |v.items|
    ensures ReadItems(Join(PrintItems(v)[i..]) + [93] + x) == Got(DocOf(v).items[i..], x)
    decreases v, 0, |v.items| - i
  {
    var p := PrintItems(v)[i..];
    JoinStep(p, 93, x);
    var y := After(p[1..], 93, x);
    ReadsBack(v.items[i], y);
    var docs := DocOf(v).items;
    assert docs[i..] == [docs[i]] + docs[i + 1..];
    assert p[1..] == PrintItems(v)[i + 1..];
    AfterOne(p[1..], 93, x);
    assert Join(p) + [93] + x == Print(v.items[i]) + y;
    ItemsStep(Join(p) + [93] + x, docs[i], y);
    if i + 1 < |v.items| { ItemsReadBack(v, i + 1, x); } else { assert p[1..] == [] && docs[i..] == [docs[i]]; }
  }

  lemma ItemsStep(t: Text, doc: Doc, y: Text)
    requires ReadValue(t) == Got(doc, y) && y != []
    ensures y[0] == 93 ==> ReadItems(t) == Got([doc], y[1..])
    ensures y[0] == 44 && ReadItems(y[1..]).Got? ==>
              ReadItems(t) == Got([doc] + ReadItems(y[1..]).value, ReadItems(y[1..]).rest)
  {
  }

  lemma MembersStep(t: Text, m: Member, y: Text)
    requires ReadMember(t) == Got(m, y) && y != []
    ensures y[0] == 125 ==> ReadMembers(t) == Got([m], y[1..])
    ensures y[0] == 44 && ReadMembers(y[1..]).Got? ==>
              ReadMembers(t) == Got([m] + ReadMembers(y[1..]).value, ReadMembers(y[1..]).rest)
  {
  }

  /** What comes after one part: a comma and the rest, or the closing bracket. */
  lemma AfterOne(parts: seq<Text>, close: Unit, x: Text)
    ensures var y := After(parts, close, x);
            && y != [] && y[0] == (if parts == [] then close else 44)
            && y[1..] == (if parts == [] then x else Join(parts) + [close] + x)
  {
  }

  lemma {:induction false} ObjectReadsBack(v: View, x: Text)
    requires v.VObj? && ValidView(v)
    ensures ReadValue(Print(v) + x) == Got(DocOf(v), x)
    decreases v, 1, 0
  {
    var parts := PrintMembers(v);
    if parts != [] {
      assert Sorted(v.fields.Keys)[0] in Elements(Sorted(v.fields.Keys));
      MemberStep(v, Sorted(v.fields.Keys)[0], []);
      assert parts[0] == PrintMember(v, Sorted(v.fields.Keys)[0]) && parts[0][0] == 34;
    }
    BodyBegins(parts, 125, x);
    Bracketed(123, Join(parts), 125, x);
    ReadObject(Join(parts) + [125] + x);
    if parts != [] {
      assert parts[0..] == parts && DocOf(v).members[0..] == DocOf(v).members;
      MembersReadBack(v, 0, x);
    }
  }

  lemma {:induction false} MemberReadsBack(v: View, k: Text, x: Text)
    requires v.VObj? && ValidView(v) && k in v.fields && Delimited(x)
    ensures ReadMember(PrintMember(v, k) + x) == Got(Member(k, DocOf(v.fields[k])), x)
    decreases v, 0, 0
  {
    var y := Print(v.fields[k]) + x;
    MemberStep(v, k, x);
    StripQuote(k, [58] + y);
    StringReadsBack(k, 0, [58] + y);
    assert ([58] + y)[1..] == y;
    ReadsBack(v.fields[k], x);
  }

  lemma {:induction false} MembersReadBack(v: View, i: nat, x: Text)
    requires v.VObj? && ValidView(v) && i < |PrintMembers(v)|
    ensures ReadMembers(Join(PrintMembers(v)[i..]) + [125] + x) == Got(DocOf(v).members[i..], x)
    decreases v, 0, 2 + |PrintMembers(v)| - i
  {
    var parts, members := PrintMembers(v), DocOf(v).members;
    var rest := parts[i + 1..];
    var y := After(rest, 125, x);
    OneMember(v, i, y);
    assert parts[i..] == [parts[i]] + rest && members[i..] == [members[i]] + members[i + 1..];
    JoinStep(parts[i..], 125, x);
    AfterOne(rest, 125, x);
    MembersStep(parts[i] + y, members[i], y);
    if i + 1 < |parts| { MembersReadBack(v, i + 1, x); } else { assert rest == [] && members[i..] == [members[i]]; }
  }

  lemma {:induction false} OneMember(v: View, i: nat, y: Text)
    requires v.VObj? && ValidView(v) && i < |PrintMembers(v)| && Delimited(y)
    ensures |DocOf(v).members| == |PrintMembers(v)|
    ensures ReadMember(PrintMembers(v)[i] + y) == Got(DocOf(v).members[i], y)
    decreases v, 0, 1
  {
    var k := Sorted(v.fields.Keys)[i];
    assert k in Elements(Sorted(v.fields.Keys));
    MemberReadsBack(v, k, y);
  }

  // ----- The order of the members ----------------------------------------------------------------------

  /** Where two texts first differ: a code unit decides, or the end of the first. */
  predicate FirstDifference(a: Text, b: Text, i: nat) {
    i <= |a| && i < |b| && a[..i] == b[..i] && (i == |a| || a[i] < b[i])
  }

  lemma {:induction false} BeforeIsByCodeUnits(a: Text, b: Text)
    ensures Before(a, b) <==> exists i: nat :: FirstDifference(a, b, i)
  {
    if b == [] {
    } else if a == [] || a[0] < b[0] {
      assert FirstDifference(a, b, 0);
    } else if a[0] == b[0] {
      BeforeIsByCodeUnits(a[1..], b[1..]);
      if i: nat :| FirstDifference(a[1..], b[1..], i) {
        assert a[..i + 1] == [a[0]] + a[1..][..i] && b[..i + 1] == [b[0]] + b[1..][..i];
        assert FirstDifference(a, b, i + 1);
      }
      if i: nat :| FirstDifference(a, b, i) {
        assert i > 0;
        assert a[..i] == [a[0]] + a[1..][..i - 1] && b[..i] == [b[0]] + b[1..][..i - 1];
        assert FirstDifference(a[1..], b[1..], i - 1);
      }
    } else {
      forall i: nat ensures !FirstDifference(a, b, i) {
        assert i > 0 && i <= |a| && i <= |b| ==> a[..i][0] == a[0] && b[..i][0] == b[0];
      }
    }
  }

  /** Every kept property is there, in ascending order of the code units of their keys, each once. */
  ghost predicate ListsInOrder(members: seq<Member>, keys: set<Text>) {
    && (forall k :: k in keys <==> exists m :: m in members && m.key == k)
    && (forall i, j | 0 <= i < j < |members| :: DiffersFirst(members[i].key, members[j].key))
  }

  ghost predicate DiffersFirst(a: Text, b: Text) {
    exists n: nat :: FirstDifference(a, b, n)
  }

  /** The text that is hashed is JSON for the manifest: it reads back as the very value, with every object's
      kept properties in ascending order, each once. */
  lemma CanonicalTextIsJson(v: Json)
    requires WellFormed(v) && v != Undefined
    ensures ReadValue(Print(ViewOf(v))) == Got(DocOf(ViewOf(v)), [])
    ensures v.Obj? ==> ListsInOrder(DocOf(ViewOf(v)).members, KeptKeys(v.entries))
  {
    ViewIsValid(v);
    ReadsBack(ViewOf(v), []);
    assert Print(ViewOf(v)) + [] == Print(ViewOf(v));
    if v.Obj? {
      assert ViewOf(v).fields.Keys == KeptKeys(v.entries);
      MembersAreInOrder(ViewOf(v));
    }
  }

  lemma MembersAreInOrder(v: View)
    requires v.VObj?
    ensures ListsInOrder(DocOf(v).members, v.fields.Keys)
  {
    var keys, members := Sorted(v.fields.Keys), DocOf(v).members;
    assert |members| == |keys| && forall i | 0 <= i < |keys| :: members[i].key == keys[i];
    forall k ensures k in v.fields.Keys <==> exists m :: m in members && m.key == k {
      KeysOfMembers(keys, members, k);
    }
    forall i, j | 0 <= i < j < |members| ensures DiffersFirst(members[i].key, members[j].key) {
      BeforeIsByCodeUnits(keys[i], keys[j]);
    }
  }

  lemma KeysOfMembers(keys: seq<Text>, members: seq<Member>, k: Text)
    requires |members| == |keys| && forall i | 0 <= i < |keys| :: members[i].key == keys[i]
    ensures k in Elements(keys) <==> exists m :: m in members && m.key == k
  {
    if k in Elements(keys) {
      var i :| 0 <= i < |keys| && keys[i] == k;
      assert members[i] in members;
    }
    if m :| m in members && m.key == k {
      var i :| 0 <= i < |members| && members[i] == m;
      assert keys[i] in keys;
    }
  }
}
