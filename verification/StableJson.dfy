/**
 * The canonical JSON text behind every plan and configuration digest, and why it identifies a value
 * up to member order. Models `stableJson` of packages/cli/src/cleanup-plan.ts and
 * packages/cli/src/lifecycle-update.ts; values are those of RFC 8259 with integer numbers.
 */
module StableJson {
  import opened Sorting

  /** A UTF-16 code unit; a JavaScript string is a sequence of them, paired or not. */
  type Unit = x: int | 0 <= x < 0x10000
  type Text = seq<Unit>
  type SafeInteger = x: int | -0x20_0000_0000_0000 < x < 0x20_0000_0000_0000

  datatype Member = Member(key: Text, value: Json)
  datatype Json = Null | Boolean(b: bool) | Number(n: SafeInteger) | String(s: Text)
                | Array(items: seq<Json>) | Object(members: seq<Member>)

  const QUOTE: Unit := 0x22
  const COMMA: Unit := 0x2C
  const MINUS: Unit := 0x2D
  const ZERO: Unit := 0x30
  const COLON: Unit := 0x3A
  const OPEN_BRACKET: Unit := 0x5B
  const BACKSLASH: Unit := 0x5C
  const CLOSE_BRACKET: Unit := 0x5D
  const LOWER_U: Unit := 0x75
  const OPEN_BRACE: Unit := 0x7B
  const CLOSE_BRACE: Unit := 0x7D
  const TRUE: Text := [0x74, 0x72, 0x75, 0x65]
  const FALSE: Text := [0x66, 0x61, 0x6C, 0x73, 0x65]
  const NULL: Text := [0x6E, 0x75, 0x6C, 0x6C]

  // ----- JSON.stringify of leaves -----

  predicate HighSurrogate(u: Unit) { 0xD800 <= u < 0xDC00 }
  predicate LowSurrogate(u: Unit) { 0xDC00 <= u < 0xE000 }

  predicate StartsPair(s: Text) {
    |s| > 1 && HighSurrogate(s[0]) && LowSurrogate(s[1])
  }

  /** The letter of a two-character escape. */
  function ShortEscape(u: Unit): Unit {
    match u
    case 0x08 => 0x62
    case 0x09 => 0x74
    case 0x0A => 0x6E
    case 0x0C => 0x66
    case 0x0D => 0x72
    case 0x22 => QUOTE
    case 0x5C => BACKSLASH
    case _ => 0
  }

  function HexDigit(d: int): Unit
    requires 0 <= d < 16
  {
    if d < 10 then 0x30 + d else 0x57 + d
  }

  function Escape(u: Unit): Text {
    if ShortEscape(u) != 0 then [BACKSLASH, ShortEscape(u)]
    else if u < 0x20 || HighSurrogate(u) || LowSurrogate(u) then
      [BACKSLASH, LOWER_U, HexDigit(u / 0x1000), HexDigit(u / 0x100 % 16), HexDigit(u / 0x10 % 16), HexDigit(u % 16)]
    else [u]
  }

  function EscapeAll(s: Text): Text {
    if s == [] then []
    else if StartsPair(s) then s[..2] + EscapeAll(s[2..])
    else Escape(s[0]) + EscapeAll(s[1..])
  }

  function Quote(s: Text): Text {
    [QUOTE] + EscapeAll(s) + [QUOTE]
  }

  function Digits(n: nat): (text: Text)
    ensures text != [] && forall d :: d in text ==> ZERO <= d <= ZERO + 9
  {
    if n < 10 then [ZERO + n] else Digits(n / 10) + [ZERO + n % 10]
  }

  function Decimal(n: int): Text {
    if n < 0 then [MINUS] + Digits(-n) else Digits(n)
  }

  // ----- stableJson -----

  /** An object entry whose child is already encoded; entries are ordered by key alone. */
  datatype Entry = Entry(key: Text, text: Text)

  function Rank(u: Unit): int { u }

  predicate EntryLe(left: Entry, right: Entry) {
    LexLe(left.key, right.key, Rank)
  }

  function Join(parts: seq<Text>): Text {
    if parts == [] then [] else if |parts| == 1 then parts[0] else parts[0] + [COMMA] + Join(parts[1..])
  }

  function EntryText(entry: Entry): Text {
    Quote(entry.key) + [COLON] + entry.text
  }

  function StableItems(items: seq<Json>): (texts: seq<Text>)
    ensures |texts| == |items| && forall i :: 0 <= i < |items| ==> texts[i] == Stable(items[i])
  {
    if items == [] then [] else [Stable(items[0])] + StableItems(items[1..])
  }

  function Entries(members: seq<Member>): (entries: seq<Entry>)
    ensures |entries| == |members|
    ensures forall i :: 0 <= i < |members| ==> entries[i] == Entry(members[i].key, Stable(members[i].value))
  {
    if members == [] then [] else [Entry(members[0].key, Stable(members[0].value))] + Entries(members[1..])
  }

  function Stable(value: Json): Text {
    match value
    case Null => NULL
    case Boolean(b) => if b then TRUE else FALSE
    case Number(n) => Decimal(n)
    case String(s) => Quote(s)
    case Array(items) => [OPEN_BRACKET] + Join(StableItems(items)) + [CLOSE_BRACKET]
    case Object(members) => [OPEN_BRACE] + Join(Map(Sort(Entries(members), EntryLe), EntryText)) + [CLOSE_BRACE]
  }

  // ----- equality of values -----

  function MemberKey(member: Member): Text { member.key }

  /** Names within an object are unique. */
  predicate Valid(value: Json) {
    match value
    case Array(items) => forall i :: 0 <= i < |items| ==> Valid(items[i])
    case Object(members) => UniqueBy(members, MemberKey) && forall i :: 0 <= i < |members| ==> Valid(members[i].value)
    case _ => true
  }

  /** Equal as RFC 8259 values: arrays in order, object members in any order. */
  ghost predicate Same(a: Json, b: Json) {
    match a
    case Array(items) =>
      b.Array? && |b.items| == |items| && forall i :: 0 <= i < |items| ==> Same(items[i], b.items[i])
    case Object(members) =>
      && b.Object? && |b.members| == |members|
      && forall i :: 0 <= i < |members| ==>
           exists j :: 0 <= j < |b.members| && b.members[j].key == members[i].key
             && Same(members[i].value, b.members[j].value)
    case _ => a == b
  }

  // ----- unique readability of leaves -----

  lemma HexDigitInjective(d: int, e: int)
    requires 0 <= d < 16 && 0 <= e < 16 && HexDigit(d) == HexDigit(e)
    ensures d == e
  {
  }

  lemma HexExpansion(u: Unit)
    ensures u == 0x1000 * (u / 0x1000) + 0x100 * (u / 0x100 % 16) + 0x10 * (u / 0x10 % 16) + u % 16
    ensures 0 <= u / 0x1000 < 16
  {
    var tens, hundreds, thousands := u / 0x10, u / 0x100, u / 0x1000;
    assert u == 0x10 * tens + u % 16;
    assert tens == 16 * hundreds + tens % 16;
    assert hundreds == 16 * thousands + hundreds % 16;
  }

  lemma HexDigitsInjective(u: Unit, v: Unit)
    requires HexDigit(u / 0x1000) == HexDigit(v / 0x1000) && HexDigit(u / 0x100 % 16) == HexDigit(v / 0x100 % 16)
    requires HexDigit(u / 0x10 % 16) == HexDigit(v / 0x10 % 16) && HexDigit(u % 16) == HexDigit(v % 16)
    ensures u == v
  {
    hide HexDigit;
    HexExpansion(u);
    HexExpansion(v);
    HexDigitInjective(u / 0x1000, v / 0x1000);
    HexDigitInjective(u / 0x100 % 16, v / 0x100 % 16);
    HexDigitInjective(u / 0x10 % 16, v / 0x10 % 16);
    HexDigitInjective(u % 16, v % 16);
  }

  lemma EscapeReadable(u: Unit, v: Unit, s: Text, t: Text)
    requires Escape(u) + s == Escape(v) + t
    ensures u == v && s == t
  {
    var text := Escape(u) + s;
    assert text[0] == Escape(u)[0] == Escape(v)[0];
    if text[0] == BACKSLASH {
      assert text[1] == Escape(u)[1] == Escape(v)[1];
      if text[1] == LOWER_U {
        assert text[2] == Escape(u)[2] == Escape(v)[2] && text[3] == Escape(u)[3] == Escape(v)[3];
        assert text[4] == Escape(u)[4] == Escape(v)[4] && text[5] == Escape(u)[5] == Escape(v)[5];
        HexDigitsInjective(u, v);
      }
    }
    assert s == text[|Escape(u)|..] && t == text[|Escape(v)|..];
  }

  /** How many code units the first encoded character stands for. */
  function HeadLength(s: Text): nat
    requires s != []
  {
    if StartsPair(s) then 2 else 1
  }

  function HeadText(s: Text): Text
    requires s != []
  {
    if StartsPair(s) then s[..2] else Escape(s[0])
  }

  lemma HeadShape(s: Text)
    requires s != []
    ensures var head := HeadText(s); head != [] && head[0] != QUOTE && (HighSurrogate(head[0]) <==> StartsPair(s))
    ensures EscapeAll(s) == HeadText(s) + EscapeAll(s[HeadLength(s)..])
  {
  }

  lemma HeadReadable(a: Text, b: Text, s: Text, t: Text)
    requires a != [] && b != [] && HeadText(a) + s == HeadText(b) + t
    ensures HeadLength(a) == HeadLength(b) && a[..HeadLength(a)] == b[..HeadLength(b)] && s == t
  {
    HeadShape(a);
    HeadShape(b);
    assert (HeadText(a) + s)[0] == HeadText(a)[0] == HeadText(b)[0];
    if StartsPair(a) {
      assert (HeadText(a) + s)[1] == a[1] == b[1];
      assert s == (HeadText(a) + s)[2..] && t == (HeadText(b) + t)[2..];
    } else {
      EscapeReadable(a[0], b[0], s, t);
    }
  }

  lemma NonEmptyStart(b: Text, t: Text)
    requires b != []
    ensures (EscapeAll(b) + [QUOTE] + t)[0] != QUOTE
  {
    HeadShape(b);
  }

  /** Only the closing quote of an empty string is a bare quote. */
  lemma EmptyReadable(b: Text, s: Text, t: Text)
    requires [QUOTE] + s == EscapeAll(b) + [QUOTE] + t
    ensures b == [] && s == t
  {
    if b == [] {
      assert s == ([QUOTE] + s)[1..] && t == (EscapeAll(b) + [QUOTE] + t)[1..];
    } else {
      NonEmptyStart(b, t);
      assert false;
    }
  }

  lemma HeadSplit(a: Text, s: Text)
    requires a != []
    ensures EscapeAll(a) + [QUOTE] + s == HeadText(a) + (EscapeAll(a[HeadLength(a)..]) + [QUOTE] + s)
    ensures a == a[..HeadLength(a)] + a[HeadLength(a)..]
  {
    hide EscapeAll, HeadText;
    HeadShape(a);
  }

  lemma {:induction false} EscapeAllReadable(a: Text, b: Text, s: Text, t: Text)
    requires EscapeAll(a) + [QUOTE] + s == EscapeAll(b) + [QUOTE] + t
    ensures a == b && s == t
    decreases |a|
  {
    if a == [] {
      assert EscapeAll(a) + [QUOTE] + s == [QUOTE] + s;
      EmptyReadable(b, s, t);
    } else if b == [] {
      assert EscapeAll(b) + [QUOTE] + t == [QUOTE] + t;
      EmptyReadable(a, t, s);
    } else {
      hide EscapeAll, HeadText;
      var restA, restB := a[HeadLength(a)..], b[HeadLength(b)..];
      HeadSplit(a, s);
      HeadSplit(b, t);
      HeadReadable(a, b, EscapeAll(restA) + [QUOTE] + s, EscapeAll(restB) + [QUOTE] + t);
      EscapeAllReadable(restA, restB, s, t);
    }
  }

  lemma QuoteReadable(a: Text, b: Text, s: Text, t: Text)
    requires Quote(a) + s == Quote(b) + t
    ensures a == b && s == t
  {
    var text := Quote(a) + s;
    assert text[1..] == EscapeAll(a) + [QUOTE] + s;
    assert text[1..] == EscapeAll(b) + [QUOTE] + t;
    EscapeAllReadable(a, b, s, t);
  }

  predicate Digit(u: Unit) { ZERO <= u <= ZERO + 9 }

  lemma {:induction false} DigitsInjective(m: nat, n: nat)
    requires Digits(m) == Digits(n)
    ensures m == n
  {
    var text := Digits(m);
    var last := text[|text| - 1];
    assert last == ZERO + m % 10 && last == ZERO + n % 10;
    if m >= 10 && n >= 10 {
      assert text[..|text| - 1] == Digits(m / 10) && text[..|text| - 1] == Digits(n / 10);
      DigitsInjective(m / 10, n / 10);
    } else {
      assert |text| == 1;
    }
  }

  lemma FirstAfter(a: Text, s: Text, b: Text, t: Text)
    requires a + s == b + t && |a| < |b|
    ensures s != [] && s[0] == b[|a|]
  {
    assert (a + s)[|a|] == (b + t)[|a|];
  }

  lemma DigitsNoLonger(m: nat, n: nat, s: Text, t: Text)
    requires Digits(m) + s == Digits(n) + t && (s != [] ==> !Digit(s[0]))
    ensures |Digits(n)| <= |Digits(m)|
  {
    hide Digits;
    forall k | 0 <= k < |Digits(n)|
      ensures Digit(Digits(n)[k])
    {
      assert Digits(n)[k] in Digits(n);
    }
    if |Digits(m)| < |Digits(n)| {
      FirstAfter(Digits(m), s, Digits(n), t);
      assert false;
    }
  }

  lemma DigitsReadable(m: nat, n: nat, s: Text, t: Text)
    requires Digits(m) + s == Digits(n) + t
    requires (s != [] ==> !Digit(s[0])) && (t != [] ==> !Digit(t[0]))
    ensures m == n && s == t
  {
    hide Digits;
    DigitsNoLonger(m, n, s, t);
    DigitsNoLonger(n, m, t, s);
    SplitEqual(Digits(m), Digits(n), s, t);
    DigitsInjective(m, n);
  }

  // ----- unique readability of values -----

  /** What may follow an encoded value. */
  predicate Closed(s: Text) {
    s == [] || s[0] in {COMMA, CLOSE_BRACKET, CLOSE_BRACE}
  }

  datatype Start = StartNull | StartTrue | StartFalse | StartNumber | StartString | StartArray | StartObject
                 | StartNothing

  /** The first code unit tells the kind of value. */
  function StartOf(u: Unit): Start {
    if u == NULL[0] then StartNull else if u == TRUE[0] then StartTrue else if u == FALSE[0] then StartFalse
    else if u == MINUS || Digit(u) then StartNumber else if u == QUOTE then StartString
    else if u == OPEN_BRACKET then StartArray else if u == OPEN_BRACE then StartObject else StartNothing
  }

  function KindOf(value: Json): Start {
    match value
    case Null => StartNull
    case Boolean(b) => if b then StartTrue else StartFalse
    case Number(_) => StartNumber
    case String(_) => StartString
    case Array(_) => StartArray
    case Object(_) => StartObject
  }

  lemma StableStart(value: Json)
    ensures Stable(value) != [] && StartOf(Stable(value)[0]) == KindOf(value)
  {
    if value.Number? && value.n >= 0 {
      assert Digits(value.n)[0] in Digits(value.n);
    }
  }

  lemma DecimalStart(n: int, s: Text)
    ensures (Decimal(n) + s) != [] && (n < 0 <==> (Decimal(n) + s)[0] == MINUS)
    ensures n < 0 ==> (Decimal(n) + s)[1..] == Digits(-n) + s
  {
    if n >= 0 {
      assert Digits(n)[0] in Digits(n);
      assert (Digits(n) + s)[0] == Digits(n)[0];
    } else {
      assert [MINUS] + Digits(-n) + s == [MINUS] + (Digits(-n) + s);
    }
  }

  lemma ClosedNotDigit(s: Text)
    requires Closed(s)
    ensures s != [] ==> !Digit(s[0])
  {
  }

  lemma DecimalReadable(m: int, n: int, s: Text, t: Text)
    requires Decimal(m) + s == Decimal(n) + t && Closed(s) && Closed(t)
    ensures m == n && s == t
  {
    hide Digits, Closed, Digit;
    ClosedNotDigit(s);
    ClosedNotDigit(t);
    DecimalStart(m, s);
    DecimalStart(n, t);
    if m < 0 {
      DigitsReadable(-m, -n, s, t);
    } else {
      DigitsReadable(m, n, s, t);
    }
  }

  lemma SplitEqual(a: Text, b: Text, s: Text, t: Text)
    requires a + s == b + t && |a| == |b|
    ensures a == b && s == t
  {
    assert a == (a + s)[..|a|] && b == (b + t)[..|b|];
    assert s == (a + s)[|a|..] && t == (b + t)[|b|..];
  }

  /** The rest of a joined list after its first part, with what closes the list. */
  function AfterFirst(parts: seq<Text>, s: Text): Text
    requires parts != []
  {
    if |parts| == 1 then s else [COMMA] + (Join(parts[1..]) + s)
  }

  lemma JoinFirst(parts: seq<Text>, s: Text)
    requires parts != []
    ensures Join(parts) + s == parts[0] + AfterFirst(parts, s)
  {
    if |parts| > 1 {
      var first, rest := parts[0], Join(parts[1..]);
      assert Join(parts) == first + [COMMA] + rest;
      hide Join;
      Associates(first + [COMMA], rest, s);
      Associates(first, [COMMA], rest + s);
    }
  }

  /** A value's text can be read off the front of any text it begins. */
  lemma {:induction false} Readable(a: Json, b: Json, s: Text, t: Text)
    requires Stable(a) + s == Stable(b) + t && Closed(s) && Closed(t)
    ensures Same(a, b) && Stable(a) == Stable(b) && s == t
    decreases a, 1, 0
  {
    StableStart(a);
    StableStart(b);
    assert (Stable(a) + s)[0] == Stable(a)[0] == Stable(b)[0];
    match a
    case Null => SplitEqual(NULL, NULL, s, t);
    case Boolean(x) => SplitEqual(Stable(a), Stable(b), s, t);
    case Number(n) => DecimalReadable(n, b.n, s, t);
    case String(x) => QuoteReadable(x, b.s, s, t);
    case Array(items) => ArrayReadable(a, b, s, t);
    case Object(members) => ObjectReadable(a, b, s, t);
  }

  lemma {:induction false} ArrayReadable(a: Json, b: Json, s: Text, t: Text)
    requires a.Array? && b.Array? && Stable(a) + s == Stable(b) + t && Closed(s) && Closed(t)
    ensures Same(a, b) && Stable(a) == Stable(b) && s == t
    decreases a, 0, |a.items| + 1
  {
    hide Stable, Closed, Join;
    ArrayBody(a.items, s);
    ArrayBody(b.items, t);
    ItemsReadable(a, a.items, b.items, s, t);
    SplitSuffix(Stable(a), Stable(b), s);
  }

  lemma {:induction false} ObjectReadable(a: Json, b: Json, s: Text, t: Text)
    requires a.Object? && b.Object? && Stable(a) + s == Stable(b) + t && Closed(s) && Closed(t)
    ensures Same(a, b) && Stable(a) == Stable(b) && s == t
    decreases a, 0, |a.members| + 2
  {
    hide Stable, Closed, Join, Same;
    ObjectBody(a.members, s);
    ObjectBody(b.members, t);
    SortKeepsElements(Entries(a.members), EntryLe);
    SortKeepsElements(Entries(b.members), EntryLe);
    EntriesReadable(a, b, Sort(Entries(a.members), EntryLe), Sort(Entries(b.members), EntryLe), s, t);
    SplitSuffix(Stable(a), Stable(b), s);
    SameEntriesSameObject(a, b);
  }

  lemma SplitSuffix(a: Text, b: Text, s: Text)
    requires a + s == b + s
    ensures a == b
  {
    assert |a| == |b|;
    SplitEqual(a, b, s, s);
  }

  lemma ArrayBody(items: seq<Json>, s: Text)
    ensures (Stable(Array(items)) + s)[1..] == Join(StableItems(items)) + ([CLOSE_BRACKET] + s)
  {
  }

  lemma ObjectBody(members: seq<Member>, s: Text)
    ensures (Stable(Object(members)) + s)[1..]
              == Join(Map(Sort(Entries(members), EntryLe), EntryText)) + ([CLOSE_BRACE] + s)
  {
  }

  /** What follows the first part begins with a comma exactly when there is a second part. */
  lemma AfterFirstStart(parts: seq<Text>, close: Unit, s: Text)
    requires parts != [] && close in {CLOSE_BRACKET, CLOSE_BRACE}
    ensures var rest := AfterFirst(parts, [close] + s);
            && rest != [] && Closed(rest) && (rest[0] == COMMA <==> |parts| > 1)
            && (|parts| == 1 ==> rest[1..] == s)
            && (|parts| > 1 ==> rest[1..] == Join(parts[1..]) + ([close] + s))
  {
  }

  /** A list is empty exactly when its text closes at once. */
  lemma JoinedStart(parts: seq<Text>, close: Unit, s: Text)
    requires close in {CLOSE_BRACKET, CLOSE_BRACE}
    requires parts != [] ==> parts[0] != [] && parts[0][0] != close
    ensures var text := Join(parts) + ([close] + s); text != [] && (text[0] == close <==> parts == [])
    ensures parts == [] ==> (Join(parts) + ([close] + s))[1..] == s
  {
    if parts != [] {
      JoinFirst(parts, [close] + s);
    }
  }

  lemma ConsTail(x: Text, rest: seq<Text>)
    ensures ([x] + rest)[1..] == rest
  {
  }

  lemma ItemsStart(items: seq<Json>)
    requires items != []
    ensures StableItems(items)[0] != [] && StableItems(items)[0][0] != CLOSE_BRACKET
    ensures StableItems(items)[1..] == StableItems(items[1..])
  {
    hide Stable;
    StableStart(items[0]);
    ConsTail(Stable(items[0]), StableItems(items[1..]));
  }

  lemma {:induction false} ItemsReadable(whole: Json, a: seq<Json>, b: seq<Json>, s: Text, t: Text)
    requires forall i :: 0 <= i < |a| ==> a[i] < whole
    requires Join(StableItems(a)) + ([CLOSE_BRACKET] + s) == Join(StableItems(b)) + ([CLOSE_BRACKET] + t)
    ensures |a| == |b| && (forall i :: 0 <= i < |a| ==> Same(a[i], b[i])) && s == t
    decreases whole, 0, |a|
  {
    hide Stable, Closed, Same, Join, AfterFirst;
    var partsA, partsB := StableItems(a), StableItems(b);
    if a != [] { ItemsStart(a); }
    if b != [] { ItemsStart(b); }
    JoinedStart(partsA, CLOSE_BRACKET, s);
    JoinedStart(partsB, CLOSE_BRACKET, t);
    if a != [] {
      var restA, restB := AfterFirst(partsA, [CLOSE_BRACKET] + s), AfterFirst(partsB, [CLOSE_BRACKET] + t);
      JoinFirst(partsA, [CLOSE_BRACKET] + s);
      JoinFirst(partsB, [CLOSE_BRACKET] + t);
      AfterFirstStart(partsA, CLOSE_BRACKET, s);
      AfterFirstStart(partsB, CLOSE_BRACKET, t);
      Readable(a[0], b[0], restA, restB);
      if |a| > 1 {
        ItemsReadable(whole, a[1..], b[1..], s, t);
        forall i | 0 <= i < |a|
          ensures Same(a[i], b[i])
        {
          assert i > 0 ==> a[i] == a[1..][i - 1] && b[i] == b[1..][i - 1];
        }
      }
    }
  }

  /** An entry is the encoding of a member of the object. */
  ghost predicate EntryOf(value: Json, entry: Entry) {
    value.Object?
      && exists i :: 0 <= i < |value.members| && entry == Entry(value.members[i].key, Stable(value.members[i].value))
  }

  lemma EntrySplit(x: Entry, s: Text)
    ensures EntryText(x) + s == Quote(x.key) + ([COLON] + (x.text + s))
    ensures ([COLON] + (x.text + s))[1..] == x.text + s
    ensures EntryText(x) != [] && EntryText(x)[0] == QUOTE
  {
  }

  lemma {:induction false} EntryReadable(a: Json, b: Json, x: Entry, y: Entry, s: Text, t: Text)
    requires EntryOf(a, x) && EntryOf(b, y) && EntryText(x) + s == EntryText(y) + t && Closed(s) && Closed(t)
    ensures x == y && s == t
    decreases a, 0, 0
  {
    hide Stable, Same, Closed, Quote, EntryText;
    EntrySplit(x, s);
    EntrySplit(y, t);
    QuoteReadable(x.key, y.key, [COLON] + (x.text + s), [COLON] + (y.text + t));
    var i :| 0 <= i < |a.members| && x == Entry(a.members[i].key, Stable(a.members[i].value));
    var j :| 0 <= j < |b.members| && y == Entry(b.members[j].key, Stable(b.members[j].value));
    Readable(a.members[i].value, b.members[j].value, s, t);
  }

  lemma EntriesStart(x: seq<Entry>)
    requires x != []
    ensures Map(x, EntryText)[0] != [] && Map(x, EntryText)[0][0] != CLOSE_BRACE
    ensures Map(x, EntryText)[1..] == Map(x[1..], EntryText)
  {
    EntrySplit(x[0], []);
  }

  lemma {:induction false} EntriesReadable(a: Json, b: Json, x: seq<Entry>, y: seq<Entry>, s: Text, t: Text)
    requires forall e :: e in x ==> EntryOf(a, e)
    requires forall e :: e in y ==> EntryOf(b, e)
    requires Join(Map(x, EntryText)) + ([CLOSE_BRACE] + s) == Join(Map(y, EntryText)) + ([CLOSE_BRACE] + t)
    ensures x == y && s == t
    decreases a, 0, |x| + 1
  {
    hide Stable, Closed, Same, Join, AfterFirst, EntryOf;
    var partsA, partsB := Map(x, EntryText), Map(y, EntryText);
    if x != [] { EntriesStart(x); }
    if y != [] { EntriesStart(y); }
    JoinedStart(partsA, CLOSE_BRACE, s);
    JoinedStart(partsB, CLOSE_BRACE, t);
    if x != [] {
      var restA, restB := AfterFirst(partsA, [CLOSE_BRACE] + s), AfterFirst(partsB, [CLOSE_BRACE] + t);
      JoinFirst(partsA, [CLOSE_BRACE] + s);
      JoinFirst(partsB, [CLOSE_BRACE] + t);
      AfterFirstStart(partsA, CLOSE_BRACE, s);
      AfterFirstStart(partsB, CLOSE_BRACE, t);
      EntryReadable(a, b, x[0], y[0], restA, restB);
      assert x == [x[0]] + x[1..] && y == [y[0]] + y[1..];
      if |x| > 1 {
        EntriesReadable(a, b, x[1..], y[1..], s, t);
      }
    }
  }

  /** Equal entry lists pair every member with one of equal key and equal value. */
  lemma {:induction false} SameEntriesSameObject(a: Json, b: Json)
    requires a.Object? && b.Object?
    requires Sort(Entries(a.members), EntryLe) == Sort(Entries(b.members), EntryLe)
    ensures Same(a, b)
    decreases a, 0, 0
  {
    SortKeepsElements(Entries(a.members), EntryLe);
    SortKeepsElements(Entries(b.members), EntryLe);
    forall i | 0 <= i < |a.members|
      ensures exists j :: 0 <= j < |b.members| && b.members[j].key == a.members[i].key
                          && Same(a.members[i].value, b.members[j].value)
    {
      var entry := Entries(a.members)[i];
      assert entry in Sort(Entries(b.members), EntryLe);
      assert entry in Entries(b.members);
      var j :| 0 <= j < |b.members| && Entries(b.members)[j] == entry;
      Readable(a.members[i].value, b.members[j].value, [], []);
    }
  }

  // ----- independence of member order -----

  lemma EntryLeIsPreorder()
    ensures Preorder(EntryLe)
  {
    forall x, y, z: Entry
      ensures EntryLe(x, y) || EntryLe(y, x)
      ensures EntryLe(x, y) && EntryLe(y, z) ==> EntryLe(x, z)
    {
      LexLeTotal(x.key, y.key, Rank);
      if EntryLe(x, y) && EntryLe(y, z) {
        LexLeTransitive(x.key, y.key, z.key, Rank);
      }
    }
  }

  /** Entries with unique keys are distinct, and their keys order them strictly. */
  lemma EntriesDistinct(members: seq<Member>)
    requires UniqueBy(members, MemberKey)
    ensures NoDuplicates(Entries(members)) && Distinguishes(Entries(members), EntryLe)
  {
    var entries := Entries(members);
    forall i, j | 0 <= i < j < |entries|
      ensures entries[i].key != entries[j].key
    {
      assert MemberKey(members[i]) != MemberKey(members[j]);
    }
    forall x, y | x in entries && y in entries && EntryLe(x, y) && EntryLe(y, x)
      ensures x == y
    {
      LexLeTotal(x.key, y.key, Rank);
    }
  }

  /** Member order does not show in the text. */
  lemma {:induction false} SameHasSameText(a: Json, b: Json)
    requires Valid(a) && Valid(b) && Same(a, b)
    ensures Stable(a) == Stable(b)
  {
    match a
    case Array(items) =>
      forall i | 0 <= i < |items|
        ensures Stable(items[i]) == Stable(b.items[i])
      {
        SameHasSameText(items[i], b.items[i]);
      }
      assert StableItems(items) == StableItems(b.items);
    case Object(members) =>
      forall i | 0 <= i < |members|
        ensures Entries(members)[i] in Entries(b.members)
      {
        var j :| 0 <= j < |b.members| && b.members[j].key == members[i].key
            && Same(members[i].value, b.members[j].value);
        SameHasSameText(members[i].value, b.members[j].value);
        assert Entries(b.members)[j] == Entries(members)[i];
      }
      SameEntriesSorted(members, b.members);
    case _ =>
  }

  lemma SameEntriesSorted(a: seq<Member>, b: seq<Member>)
    requires UniqueBy(a, MemberKey) && UniqueBy(b, MemberKey) && |a| == |b|
    requires forall i :: 0 <= i < |a| ==> Entries(a)[i] in Entries(b)
    ensures Sort(Entries(a), EntryLe) == Sort(Entries(b), EntryLe)
  {
    hide Stable, EntryLe;
    EntriesDistinct(a);
    EntriesDistinct(b);
    EntryLeIsPreorder();
    InsideIsPermutation(Entries(a), Entries(b));
    SortIgnoresInputOrder(Entries(a), Entries(b), EntryLe);
  }

  /** The canonical text, and so a digest of it, identifies a value up to member order. */
  lemma StableIdentifies(a: Json, b: Json)
    requires Valid(a) && Valid(b)
    ensures Stable(a) == Stable(b) <==> Same(a, b)
  {
    if Stable(a) == Stable(b) {
      assert Stable(a) + [] == Stable(b) + [];
      Readable(a, b, [], []);
    } else if Same(a, b) {
      SameHasSameText(a, b);
    }
  }
}
