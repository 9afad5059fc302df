/** Canonical JSON text and its fingerprint (src/domain/canonical.ts), with the parser that undoes it.
    A JavaScript string is a sequence of UTF-16 code units. */
module CanonicalJson {

  type Unit = u: int | 0 <= u < 0x10000
  type Text = seq<Unit>

  datatype Option<+T> = None | Some(value: T) {
    predicate IsFailure() { None? }
    function PropagateFailure<U>(): Option<U> requires None? { None }
    function Extract(): T requires Some? { value }
  }

  /** JSON values whose numbers are integers. An object is a finite map: member order is not part of its value. */
  datatype Json =
    | JNull
    | JBool(b: bool)
    | JNum(n: int)
    | JStr(s: Text)
    | JArr(items: seq<Json>)
    | JObj(members: map<Text, Json>)

  const QUOTE: Unit := 0x22
  const BACKSLASH: Unit := 0x5C
  const COMMA: Unit := 0x2C
  const COLON: Unit := 0x3A
  const MINUS: Unit := 0x2D
  const LBRACKET: Unit := 0x5B
  const RBRACKET: Unit := 0x5D
  const LBRACE: Unit := 0x7B
  const RBRACE: Unit := 0x7D
  const NULL: Text := [0x6E, 0x75, 0x6C, 0x6C]
  const TRUE: Text := [0x74, 0x72, 0x75, 0x65]
  const FALSE: Text := [0x66, 0x61, 0x6C, 0x73, 0x65]

  // ---------- key order: lexicographic on code units, as Array.prototype.sort ----------

  predicate Less(a: Text, b: Text) {
    b != [] && (a == [] || a[0] < b[0] || (a[0] == b[0] && Less(a[1..], b[1..])))
  }

  ghost predicate Sorted(ks: seq<Text>) {
    forall i, j :: 0 <= i < j < |ks| ==> Less(ks[i], ks[j])
  }

  lemma {:induction false} LessTransitive(a: Text, b: Text, c: Text)
    requires Less(a, b) && Less(b, c)
    ensures Less(a, c)
  {
    if a != [] && a[0] == b[0] && b[0] == c[0] {
      LessTransitive(a[1..], b[1..], c[1..]);
    }
  }

  lemma {:induction false} LessTotal(a: Text, b: Text)
    ensures !(Less(a, b) && Less(b, a))
    ensures a == b || Less(a, b) || Less(b, a)
    ensures a == b ==> !Less(a, b)
  {
    if a != [] && b != [] && a[0] == b[0] {
      assert a == [a[0]] + a[1..] && b == [b[0]] + b[1..];
      LessTotal(a[1..], b[1..]);
    }
  }

  /** `a` and `b` share their first `n` units; then `a` ends or has the smaller unit. */
  predicate Precedes(a: Text, b: Text, n: nat) {
    n <= |a| && n < |b| && a[..n] == b[..n] && (n == |a| || a[n] < b[n])
  }

  /** The order of names: a proper prefix comes before what extends it, and otherwise the first unit in which two names
      differ decides. */
  lemma {:induction false} LessExactly(a: Text, b: Text)
    ensures Less(a, b) <==> exists n: nat :: Precedes(a, b, n)
  {
    if a == [] && b != [] {
      assert Precedes(a, b, 0);
    } else if a != [] && b != [] && a[0] != b[0] {
      assert a[0] < b[0] ==> Precedes(a, b, 0);
    } else if a != [] && b != [] {
      LessExactly(a[1..], b[1..]);
      if Less(a, b) {
        var n: nat :| Precedes(a[1..], b[1..], n);
        assert a[..n + 1] == [a[0]] + a[1..][..n] && b[..n + 1] == [b[0]] + b[1..][..n];
        assert Precedes(a, b, n + 1);
      }
      if n: nat :| Precedes(a, b, n) {
        assert n > 0 && a[1..][..n - 1] == a[..n][1..] && b[1..][..n - 1] == b[..n][1..];
        assert Precedes(a[1..], b[1..], n - 1);
      }
    }
  }

  function Insert(k: Text, ks: seq<Text>): seq<Text> {
    if ks == [] || Less(k, ks[0]) then [k] + ks else [ks[0]] + Insert(k, ks[1..])
  }

  lemma {:induction false} InsertSorts(k: Text, ks: seq<Text>)
    requires Sorted(ks) && k !in ks
    ensures Sorted(Insert(k, ks))
    ensures forall x :: x in Insert(k, ks) <==> x == k || x in ks
  {
    if ks == [] {
    } else if Less(k, ks[0]) {
      forall i | 0 < i < |ks| ensures Less(k, ks[i]) { LessTransitive(k, ks[0], ks[i]); }
    } else {
      assert ks == [ks[0]] + ks[1..];
      InsertSorts(k, ks[1..]);
      LessTotal(k, ks[0]);
      var r := Insert(k, ks[1..]);
      forall i | 0 <= i < |r| ensures Less(ks[0], r[i]) { assert r[i] in r; }
    }
  }

  /** The members' names in sorted order, whatever order they are enumerated in. */
  ghost function SortedKeys(ks: set<Text>): (r: seq<Text>)
    ensures Sorted(r)
    ensures forall x :: x in r <==> x in ks
  {
    if ks == {} then [] else
      var k :| k in ks;
      InsertSorts(k, SortedKeys(ks - {k}));
      Insert(k, SortedKeys(ks - {k}))
  }

  lemma TailKeys(ks: seq<Text>)
    requires Sorted(ks) && ks != []
    ensures forall x :: x in ks[1..] <==> x in ks && x != ks[0]
  {
    forall x ensures x in ks[1..] <==> x in ks && x != ks[0] {
      assert ks == [ks[0]] + ks[1..];
      if x in ks[1..] {
        var i :| 0 <= i < |ks[1..]| && ks[1..][i] == x;
        assert Less(ks[0], ks[i + 1]);
        LessTotal(ks[0], x);
      }
    }
  }

  /** Any two sorted listings of the same names agree: the enumeration order cannot show in the text. */
  lemma {:induction false} SortedUnique(a: seq<Text>, b: seq<Text>)
    requires Sorted(a) && Sorted(b)
    requires forall x :: x in a <==> x in b
    ensures a == b
  {
    assert b == [] || b[0] in b;
    if a != [] {
      assert a[0] in b && b[0] in a;
      var i :| 0 <= i < |b| && b[i] == a[0];
      var j :| 0 <= j < |a| && a[j] == b[0];
      LessTotal(a[0], b[0]);
      assert a[0] == b[0];
      LessTotal(a[0], a[0]);
      TailKeys(a);
      TailKeys(b);
      SortedUnique(a[1..], b[1..]);
    }
  }

  // ---------- the printer ----------

  function Decimal(n: nat): Text {
    if n < 10 then [48 + n] else Decimal(n / 10) + [48 + n % 10]
  }

  predicate High(u: Unit) { 0xD800 <= u < 0xDC00 }
  predicate Low(u: Unit) { 0xDC00 <= u < 0xE000 }

  function HexDigit(d: int): Unit requires 0 <= d < 16 { if d < 10 then 48 + d else 87 + d }

  function EscapeHex(u: Unit): Text {
    [0x75, HexDigit(u / 4096), HexDigit(u / 256 % 16), HexDigit(u / 16 % 16), HexDigit(u % 16)]
  }

  /** JSON.stringify of one code unit that is not half of a surrogate pair. */
  function EscapeUnit(u: Unit): Text {
    if u == QUOTE || u == BACKSLASH then [BACKSLASH, u]
    else if u == 8 then [BACKSLASH, 0x62]
    else if u == 9 then [BACKSLASH, 0x74]
    else if u == 10 then [BACKSLASH, 0x6E]
    else if u == 12 then [BACKSLASH, 0x66]
    else if u == 13 then [BACKSLASH, 0x72]
    else if u < 0x20 || High(u) || Low(u) then
      [BACKSLASH] + EscapeHex(u)
    else [u]
  }

  function Escape(s: Text): Text {
    if s == [] then []
    else if High(s[0]) && |s| > 1 && Low(s[1]) then [s[0], s[1]] + Escape(s[2..])
    else EscapeUnit(s[0]) + Escape(s[1..])
  }

  function Quote(s: Text): Text { [QUOTE] + Escape(s) + [QUOTE] }

  ghost function CanonicalJson(j: Json): Text
    decreases j, 1
  {
    match j
    case JNull => NULL
    case JBool(b) => if b then TRUE else FALSE
    case JNum(n) => if n < 0 then [MINUS] + Decimal(-n) else Decimal(n)
    case JStr(s) => Quote(s)
    case JArr(items) => [LBRACKET] + PrintItems(items) + [RBRACKET]
    case JObj(m) => [LBRACE] + PrintMembers(j, SortedKeys(m.Keys)) + [RBRACE]
  }

  ghost function PrintItems(items: seq<Json>): Text
    decreases items, 0
  {
    if items == [] then []
    else if |items| == 1 then CanonicalJson(items[0])
    else CanonicalJson(items[0]) + [COMMA] + PrintItems(items[1..])
  }

  ghost function PrintMembers(j: Json, ks: seq<Text>): Text
    requires j.JObj? && forall k :: k in ks ==> k in j.members
    decreases j, 0, |ks|
  {
    if ks == [] then []
    else
      var member := Quote(ks[0]) + [COLON] + CanonicalJson(j.members[ks[0]]);
      if |ks| == 1 then member else member + [COMMA] + PrintMembers(j, ks[1..])
  }

  // ---------- the parser ----------

  predicate IsDigit(u: Unit) { 48 <= u < 58 }

  function ParseDigits(acc: nat, s: Text): (r: (nat, Text))
    ensures |r.1| <= |s|
    decreases |s|
  {
    if s != [] && IsDigit(s[0]) then ParseDigits(10 * acc + (s[0] - 48), s[1..]) else (acc, s)
  }

  function UnHex(u: Unit): Option<nat> {
    if 48 <= u < 58 then Some(u - 48) else if 97 <= u < 103 then Some(u - 87) else None
  }

  /** One escape sequence after its backslash: the unit it stands for and how many units it takes. */
  function ParseEscape(s: Text): (r: Option<(Unit, nat)>)
    ensures r.Some? ==> 0 < r.value.1 <= |s|
  {
    if s == [] then None
    else if s[0] == QUOTE || s[0] == BACKSLASH then Some((s[0], 1))
    else if s[0] == 0x62 then Some((8, 1))
    else if s[0] == 0x74 then Some((9, 1))
    else if s[0] == 0x6E then Some((10, 1))
    else if s[0] == 0x66 then Some((12, 1))
    else if s[0] == 0x72 then Some((13, 1))
    else if s[0] == 0x75 && |s| >= 5 then
      var a :- UnHex(s[1]);
      var b :- UnHex(s[2]);
      var c :- UnHex(s[3]);
      var d :- UnHex(s[4]);
      var u: int := 4096 * a + 256 * b + 16 * c + d;
      if u < 0x10000 then Some((u, 5)) else None
    else None
  }

  /** A string body up to and including its closing quote. */
  function ParseString(s: Text): (r: Option<(Text, Text)>)
    ensures r.Some? ==> |r.value.1| < |s|
  {
    if s == [] then None
    else if s[0] == QUOTE then Some(([], s[1..]))
    else if s[0] == BACKSLASH then
      var e :- ParseEscape(s[1..]);
      var t :- ParseString(s[1 + e.1..]);
      Some(([e.0] + t.0, t.1))
    else
      var t :- ParseString(s[1..]);
      Some(([s[0]] + t.0, t.1))
  }

  function Parse(s: Text): (r: Option<(Json, Text)>)
    ensures r.Some? ==> |r.value.1| < |s|
    decreases |s|, 0
  {
    if s == [] then None
    else if NULL <= s then Some((JNull, s[4..]))
    else if TRUE <= s then Some((JBool(true), s[4..]))
    else if FALSE <= s then Some((JBool(false), s[5..]))
    else if s[0] == QUOTE then var t :- ParseString(s[1..]); Some((JStr(t.0), t.1))
    else if s[0] == MINUS then
      var d := ParseDigits(0, s[1..]);
      var n := -(d.0 as int);
      Some((JNum(n), d.1))
    else if IsDigit(s[0]) then
      var d := ParseDigits(s[0] - 48, s[1..]);
      Some((JNum(d.0), d.1))
    else if s[0] == LBRACKET then
      if |s| > 1 && s[1] == RBRACKET then Some((JArr([]), s[2..]))
      else var t :- ParseItems(s[1..]); Some((JArr(t.0), t.1))
    else if s[0] == LBRACE then
      if |s| > 1 && s[1] == RBRACE then Some((JObj(map[]), s[2..]))
      else var t :- ParseMembers(s[1..]); Some((JObj(t.0), t.1))
    else None
  }

  function ParseItems(s: Text): (r: Option<(seq<Json>, Text)>)
    ensures r.Some? ==> |r.value.1| < |s|
    decreases |s|, 1
  {
    var x :- Parse(s);
    if x.1 == [] then None
    else if x.1[0] == RBRACKET then Some(([x.0], x.1[1..]))
    else if x.1[0] == COMMA then var t :- ParseItems(x.1[1..]); Some(([x.0] + t.0, t.1))
    else None
  }

  /** A later member of the same name overrides an earlier one. */
  function ParseMembers(s: Text): (r: Option<(map<Text, Json>, Text)>)
    ensures r.Some? ==> |r.value.1| < |s|
    decreases |s|, 1
  {
    if s == [] || s[0] != QUOTE then None else
      var k :- ParseString(s[1..]);
      if k.1 == [] || k.1[0] != COLON then None else
        var v :- Parse(k.1[1..]);
        if v.1 == [] then None
        else if v.1[0] == RBRACE then Some((map[k.0 := v.0], v.1[1..]))
        else if v.1[0] == COMMA then var t :- ParseMembers(v.1[1..]); Some((map[k.0 := v.0] + t.0, t.1))
        else None
  }

  // ---------- the text is the shortest JSON.stringify allows ----------

  /** No number but zero starts with a zero. */
  lemma {:induction false} DecimalIsShortest(n: nat)
    ensures n > 0 ==> Decimal(n)[0] != 48
    ensures forall i :: 0 <= i < |Decimal(n)| ==> IsDigit(Decimal(n)[i])
    ensures |Decimal(n)| == 1 <==> n < 10
  {
    if n >= 10 {
      DecimalIsShortest(n / 10);
      assert Decimal(n)[0] == Decimal(n / 10)[0];
    }
  }

  /** A unit stands for itself unless it is a quote, a backslash, a control character or half of a surrogate pair; seven
      of those have an escape of two units, the others one of six; a whole surrogate pair stands for itself. */
  lemma EscapesExactly(u: Unit, v: Unit)
    ensures Escape([u]) == [u] <==> u >= 0x20 && u != QUOTE && u != BACKSLASH && !(0xD800 <= u < 0xE000)
    ensures |Escape([u])| == 2 <==> u == QUOTE || u == BACKSLASH || u == 8 || u == 9 || u == 10 || u == 12 || u == 13
    ensures Escape([u]) == [u] || |Escape([u])| == 2 || |Escape([u])| == 6
    ensures 0xD800 <= u < 0xDC00 <= v < 0xE000 ==> Escape([u, v]) == [u, v]
    ensures !(0xD800 <= u < 0xDC00 <= v < 0xE000) ==> Escape([u, v]) == Escape([u]) + Escape([v])
  {
    assert [u][1..] == [] && [u, v][1..] == [v] && [u, v][2..] == [];
    assert Escape([]) == [];
    assert Escape([u]) == EscapeUnit(u) + [] == EscapeUnit(u);
  }

  // ---------- the parser undoes the printer ----------

  /** What may follow a number without being read as part of it. */
  predicate Delimited(rest: Text) { rest == [] || !IsDigit(rest[0]) }

  lemma {:induction false} DecimalShape(n: nat)
    ensures Decimal(n) != [] && IsDigit(Decimal(n)[0])
  {
    if n >= 10 { DecimalShape(n / 10); }
  }

  lemma {:induction false} DigitsRoundTrip(n: nat, rest: Text)
    ensures ParseDigits(0, Decimal(n) + rest) == ParseDigits(n, rest)
  {
    if n < 10 {
      assert (Decimal(n) + rest)[1..] == rest;
    } else {
      var last: Text := [48 + n % 10];
      assert Decimal(n) + rest == Decimal(n / 10) + (last + rest);
      DigitsRoundTrip(n / 10, last + rest);
      assert (last + rest)[1..] == rest;
    }
  }

  lemma HexRoundTrip(u: Unit)
    ensures EscapeHex(u)[0] == 0x75
    ensures UnHex(EscapeHex(u)[1]) == Some(u / 4096) && UnHex(EscapeHex(u)[2]) == Some(u / 256 % 16)
    ensures UnHex(EscapeHex(u)[3]) == Some(u / 16 % 16) && UnHex(EscapeHex(u)[4]) == Some(u % 16)
    ensures u == 4096 * (u / 4096) + 256 * (u / 256 % 16) + 16 * (u / 16 % 16) + u % 16
  {
    assert u / 16 == 16 * (u / 256) + u / 16 % 16;
    assert u / 256 == 16 * (u / 4096) + u / 256 % 16;
  }

  /** What an escaped unit's text is read back as, once its backslash is gone. */
  lemma EscapeReads(u: Unit, rest: Text)
    requires |EscapeUnit(u)| > 1
    ensures EscapeUnit(u)[0] == BACKSLASH
    ensures ParseEscape(EscapeUnit(u)[1..] + rest) == Some((u, |EscapeUnit(u)| - 1))
  {
    var t := EscapeUnit(u)[1..] + rest;
    if |EscapeUnit(u)| == 2 {
      assert t[0] == EscapeUnit(u)[1];
    } else {
      var h := EscapeHex(u);
      HexRoundTrip(u);
      assert EscapeUnit(u)[1..] == h;
      assert t[0] == h[0] && t[1] == h[1] && t[2] == h[2] && t[3] == h[3] && t[4] == h[4];
    }
  }

  lemma EscapeUnitRoundTrip(u: Unit, rest: Text)
    requires ParseString(rest).Some?
    ensures ParseString(EscapeUnit(u) + rest) == Some(([u] + ParseString(rest).value.0, ParseString(rest).value.1))
  {
    var e := EscapeUnit(u);
    var s := e + rest;
    if |e| == 1 {
      assert s[1..] == rest;
    } else {
      EscapeReads(u, rest);
      assert s[1..] == e[1..] + rest;
      assert s[|e|..] == rest;
    }
  }

  lemma Assoc(a: Text, b: Text, c: Text)
    ensures (a + b) + c == a + (b + c)
  {
  }

  /** The text of a string body, up to its closing quote, is read back as that string. */
  lemma {:induction false} StringRoundTrip(s: Text, rest: Text)
    ensures ParseString(Escape(s) + ([QUOTE] + rest)) == Some((s, rest))
    decreases |s|
  {
    var tail: Text := [QUOTE] + rest;
    if s == [] {
      assert Escape(s) + tail == tail;
      assert tail[1..] == rest;
    } else if High(s[0]) && |s| > 1 && Low(s[1]) {
      StringRoundTrip(s[2..], rest);
      Assoc([s[0], s[1]], Escape(s[2..]), tail);
      PairReads(s, Escape(s[2..]) + tail);
    } else {
      StringRoundTrip(s[1..], rest);
      Assoc(EscapeUnit(s[0]), Escape(s[1..]), tail);
      EscapeUnitRoundTrip(s[0], Escape(s[1..]) + tail);
      assert s == [s[0]] + s[1..];
    }
  }

  lemma PairReads(s: Text, t: Text)
    requires |s| > 1 && High(s[0]) && Low(s[1])
    requires ParseString(t).Some? && ParseString(t).value.0 == s[2..]
    ensures ParseString([s[0], s[1]] + t) == Some((s, ParseString(t).value.1))
  {
    assert [s[0], s[1]] + t == [s[0]] + ([s[1]] + t);
    RawReads(s[1], t);
    RawReads(s[0], [s[1]] + t);
    assert s == [s[0]] + ([s[1]] + s[2..]);
  }

  lemma RawReads(u: Unit, rest: Text)
    requires u != QUOTE && u != BACKSLASH && ParseString(rest).Some?
    ensures ParseString([u] + rest) == Some(([u] + ParseString(rest).value.0, ParseString(rest).value.1))
  {
    assert ([u] + rest)[1..] == rest;
  }

  lemma QuoteRoundTrip(s: Text, rest: Text)
    ensures Quote(s) + rest == [QUOTE] + (Escape(s) + ([QUOTE] + rest))
    ensures ParseString((Quote(s) + rest)[1..]) == Some((s, rest))
  {
    hide ParseString, Escape;
    StringRoundTrip(s, rest);
    assert Quote(s) + rest == [QUOTE] + (Escape(s) + ([QUOTE] + rest));
    assert (Quote(s) + rest)[1..] == Escape(s) + ([QUOTE] + rest);
  }

  lemma NumberRoundTrip(n: int, rest: Text)
    requires Delimited(rest)
    ensures Parse(CanonicalJson(JNum(n)) + rest) == Some((JNum(n), rest))
  {
    hide Parse, Decimal, ParseDigits;
    var m: nat := if n < 0 then -n else n;
    var s := CanonicalJson(JNum(n)) + rest;
    DecimalShape(m);
    DigitsRoundTrip(m, rest);
    DigitsEnd(m, rest);
    if n < 0 {
      assert s[1..] == Decimal(m) + rest;
    } else {
      assert s == Decimal(m) + rest;
    }
    ParsesNumber(s);
  }

  lemma DigitsEnd(n: nat, rest: Text)
    requires Delimited(rest)
    ensures ParseDigits(n, rest) == (n, rest)
  {
  }

  lemma ParsesNumber(s: Text)
    requires s != [] && (IsDigit(s[0]) || s[0] == MINUS)
    ensures Parse(s) == if s[0] == MINUS then Some((JNum(-(ParseDigits(0, s[1..]).0 as int)), ParseDigits(0, s[1..]).1))
                        else Some((JNum(ParseDigits(0, s).0), ParseDigits(0, s).1))
  {
    assert !(NULL <= s) && !(TRUE <= s) && !(FALSE <= s);
  }

  lemma LiteralRoundTrip(j: Json, rest: Text)
    requires j.JNull? || j.JBool?
    ensures Parse(CanonicalJson(j) + rest) == Some((j, rest))
  {
    var t := CanonicalJson(j);
    var s := t + rest;
    assert s[|t|..] == rest;
    assert s[..|t|] == t;
    assert s[0] == t[0];
  }

  /** Main inverse: parsing the canonical text gives the value back, leaving what followed it. */
  lemma {:induction false} RoundTrip(j: Json, rest: Text)
    requires Delimited(rest)
    ensures Parse(CanonicalJson(j) + rest) == Some((j, rest))
    decreases j, 1
  {
    match j
    case JNull => LiteralRoundTrip(j, rest);
    case JBool(_) => LiteralRoundTrip(j, rest);
    case JNum(n) => NumberRoundTrip(n, rest);
    case JStr(t) => QuoteRoundTrip(t, rest);
    case JArr(items) => ArrayRoundTrip(items, rest);
    case JObj(m) => ObjectRoundTrip(j, rest);
  }

  lemma {:induction false} ArrayRoundTrip(items: seq<Json>, rest: Text)
    ensures Parse(CanonicalJson(JArr(items)) + rest) == Some((JArr(items), rest))
    decreases items, 1
  {
    var s := CanonicalJson(JArr(items)) + rest;
    var body := PrintItems(items) + ([RBRACKET] + rest);
    assert s == [LBRACKET] + body;
    assert s[1..] == body;
    if items == [] {
      assert s[2..] == rest;
    } else {
      ItemsRoundTrip(items, rest);
      PrintStart(items[0]);
      assert s[1] == CanonicalJson(items[0])[0];
    }
  }

  lemma {:induction false} ObjectRoundTrip(j: Json, rest: Text)
    requires j.JObj?
    ensures Parse(CanonicalJson(j) + rest) == Some((j, rest))
    decreases j, 0
  {
    var ks := SortedKeys(j.members.Keys);
    var body := PrintMembers(j, ks) + ([RBRACE] + rest);
    Bracketed([LBRACE], PrintMembers(j, ks), [RBRACE], rest);
    ListedKeys(j.members, ks);
    if ks == [] {
      assert ([LBRACE] + body)[2..] == rest;
    } else {
      SortedDistinct(ks);
      MembersRoundTrip(j, ks, rest);
      MembersStart(j, ks);
      ObjectReads(CanonicalJson(j) + rest, j.members, rest);
    }
  }

  lemma ObjectReads(s: Text, m: map<Text, Json>, rest: Text)
    requires |s| > 1 && s[0] == LBRACE && s[1] == QUOTE && ParseMembers(s[1..]) == Some((m, rest))
    ensures Parse(s) == Some((JObj(m), rest))
  {
  }

  lemma Bracketed(open: Text, body: Text, close: Text, rest: Text)
    requires |open| == 1
    ensures (open + body + close) + rest == open + (body + (close + rest))
    ensures ((open + body + close) + rest)[1..] == body + (close + rest)
    ensures ((open + body + close) + rest)[0] == open[0]
    ensures body != [] ==> ((open + body + close) + rest)[1] == body[0]
  {
  }

  lemma MembersStart(j: Json, ks: seq<Text>)
    requires j.JObj? && ks != [] && forall k :: k in ks ==> k in j.members
    ensures PrintMembers(j, ks) != [] && PrintMembers(j, ks)[0] == QUOTE
  {
  }

  lemma ListedKeys(m: map<Text, Json>, ks: seq<Text>)
    requires forall k :: k in ks <==> k in m
    ensures (map k | k in ks :: m[k]) == m
    ensures ks == [] ==> m == map[]
  {
  }

  /** A value's text never starts with a closing bracket, so an empty array cannot be confused. */
  lemma PrintStart(j: Json)
    ensures CanonicalJson(j) != [] && CanonicalJson(j)[0] != RBRACKET
  {
    if j.JNum? { DecimalShape(if j.n < 0 then -j.n else j.n); }
  }

  lemma SortedDistinct(ks: seq<Text>)
    requires Sorted(ks)
    ensures forall i, j :: 0 <= i < j < |ks| ==> ks[i] != ks[j]
  {
    forall i, j | 0 <= i < j < |ks| ensures ks[i] != ks[j] { LessTotal(ks[i], ks[j]); }
  }

  /** One item followed by `after` is read as its value and whatever comes after the separator. */
  lemma ItemReads(v: Json, after: Text)
    requires after != [] && Parse(CanonicalJson(v) + after) == Some((v, after))
    ensures ParseItems(CanonicalJson(v) + after) ==
            if after[0] == RBRACKET then Some(([v], after[1..]))
            else if after[0] == COMMA then
              (if ParseItems(after[1..]).None? then None else
                Some(([v] + ParseItems(after[1..]).value.0, ParseItems(after[1..]).value.1)))
            else None
  {
  }

  lemma {:induction false} ItemsRoundTrip(items: seq<Json>, rest: Text)
    requires items != []
    ensures ParseItems(PrintItems(items) + ([RBRACKET] + rest)) == Some((items, rest))
    decreases items, 0
  {
    hide Parse, ParseItems, CanonicalJson;
    var tail: Text := [RBRACKET] + rest;
    if |items| == 1 {
      RoundTrip(items[0], tail);
      ItemReads(items[0], tail);
      assert tail[1..] == rest;
      assert items == [items[0]];
    } else {
      var after := [COMMA] + (PrintItems(items[1..]) + tail);
      assert PrintItems(items) + tail == CanonicalJson(items[0]) + after;
      RoundTrip(items[0], after);
      ItemReads(items[0], after);
      assert after[1..] == PrintItems(items[1..]) + tail;
      ItemsRoundTrip(items[1..], rest);
      assert items == [items[0]] + items[1..];
    }
  }

  /** One member followed by `after` is read as its name, its value and whatever comes after the separator. */
  lemma MemberReads(k: Text, v: Json, after: Text)
    requires after != [] && Parse(CanonicalJson(v) + after) == Some((v, after))
    ensures ParseMembers(Quote(k) + ([COLON] + (CanonicalJson(v) + after))) ==
            if after[0] == RBRACE then Some((map[k := v], after[1..]))
            else if after[0] == COMMA then
              (if ParseMembers(after[1..]).None? then None else
                Some((map[k := v] + ParseMembers(after[1..]).value.0, ParseMembers(after[1..]).value.1)))
            else None
  {
    var value := [COLON] + (CanonicalJson(v) + after);
    QuoteRoundTrip(k, value);
    assert value[1..] == CanonicalJson(v) + after;
  }

  lemma {:induction false} MembersRoundTrip(j: Json, ks: seq<Text>, rest: Text)
    requires j.JObj? && ks != [] && forall k :: k in ks ==> k in j.members
    requires forall i, l :: 0 <= i < l < |ks| ==> ks[i] != ks[l]
    ensures ParseMembers(PrintMembers(j, ks) + ([RBRACE] + rest)) == Some((map k | k in ks :: j.members[k], rest))
    decreases j, 0, |ks|
  {
    hide Parse, ParseMembers, CanonicalJson;
    var m := j.members;
    var tail: Text := [RBRACE] + rest;
    if |ks| == 1 {
      RoundTrip(m[ks[0]], tail);
      MemberReads(ks[0], m[ks[0]], tail);
      MemberText(ks[0], m[ks[0]], tail);
      assert tail[1..] == rest;
      assert (map k | k in ks :: m[k]) == map[ks[0] := m[ks[0]]];
    } else {
      var more := PrintMembers(j, ks[1..]) + tail;
      RoundTrip(m[ks[0]], [COMMA] + more);
      MemberReads(ks[0], m[ks[0]], [COMMA] + more);
      MemberText(ks[0], m[ks[0]], [COMMA] + more);
      Separated(Quote(ks[0]) + [COLON] + CanonicalJson(m[ks[0]]), PrintMembers(j, ks[1..]), tail);
      assert ([COMMA] + more)[1..] == more;
      MembersRoundTrip(j, ks[1..], rest);
      SplitKeys(m, ks);
    }
  }

  lemma MemberText(k: Text, v: Json, after: Text)
    ensures (Quote(k) + [COLON] + CanonicalJson(v)) + after == Quote(k) + ([COLON] + (CanonicalJson(v) + after))
  {
    Assoc(Quote(k) + [COLON], CanonicalJson(v), after);
    Assoc(Quote(k), [COLON], CanonicalJson(v) + after);
  }

  lemma Separated(first: Text, more: Text, tail: Text)
    ensures (first + [COMMA] + more) + tail == first + ([COMMA] + (more + tail))
  {
  }

  lemma SplitKeys(m: map<Text, Json>, ks: seq<Text>)
    requires ks != [] && forall k :: k in ks ==> k in m
    ensures forall k :: k in ks[1..] ==> k in m
    ensures (map k | k in ks :: m[k]) == map[ks[0] := m[ks[0]]] + (map k | k in ks[1..] :: m[k])
  {
    assert ks == [ks[0]] + ks[1..];
  }

  /** Two values have the same canonical text exactly when they are equal up to member order. */
  lemma CanonicalJsonInjective(a: Json, b: Json)
    ensures CanonicalJson(a) == CanonicalJson(b) <==> a == b
  {
    RoundTrip(a, []);
    RoundTrip(b, []);
    assert CanonicalJson(a) + [] == CanonicalJson(a) && CanonicalJson(b) + [] == CanonicalJson(b);
  }

  // ---------- the fingerprint ----------

  /** SHA-256, assumed injective: a digest stands for exactly the text it was computed from. */
  datatype Digest = Sha256(text: Text)

  ghost function CanonicalHash(j: Json): Digest { Sha256(CanonicalJson(j)) }

  lemma CanonicalHashInjective(a: Json, b: Json)
    ensures CanonicalHash(a) == CanonicalHash(b) <==> a == b
  {
    CanonicalJsonInjective(a, b);
  }
}
