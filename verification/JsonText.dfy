/**
 JSON values and their text, as Python's `json.dumps` prints them with default settings
 (sections 4 and 7 of RFC 8259).
 */
module JsonText {
  import opened Common

  datatype Field = Field(key: string, value: Json)

  /** `Atom` is the printed form of a number, a boolean or null. */
  datatype Json = Atom(text: string) | Str(s: string) | Arr(items: seq<Json>) | Obj(fields: seq<Field>)

  /** The characters numbers and the names true, false, null, NaN, Infinity are made of. */
  predicate IsAtomChar(c: char) {
    'a' <= c <= 'z' || 'A' <= c <= 'Z' || '0' <= c <= '9' || c == '+' || c == '-' || c == '.'
  }

  predicate IsAtom(text: string) {
    text != "" && forall c | c in text :: IsAtomChar(c)
  }

  predicate AtomsOk(v: Json)
    decreases v
  {
    match v
    case Atom(text) => IsAtom(text)
    case Str(_) => true
    case Arr(items) => forall i | 0 <= i < |items| :: AtomsOk(items[i])
    case Obj(fields) => forall i | 0 <= i < |fields| :: AtomsOk(fields[i].value)
  }

  /* ---------- Printing ---------- */

  function HexDigit(n: nat): (c: char)
    requires n < 16
    ensures IsAtomChar(c)
  {
    "0123456789abcdef"[n]
  }

  /** The escape of one UTF-16 code unit. */
  function Unit(n: nat): string
    requires n < 0x10000
  {
    ['\\', 'u', HexDigit(n / 4096), HexDigit(n / 256 % 16), HexDigit(n / 16 % 16), HexDigit(n % 16)]
  }

  /** The \uXXXX form: one code unit, or a surrogate pair. */
  function Units(n: nat): string
    requires n < 0x110000
  {
    if n < 0x10000 then Unit(n) else Unit(High(n)) + Unit(Low(n))
  }

  predicate IsPlain(c: char) {
    32 <= c as int <= 126 && c != '"' && c != '\\'
  }

  function EscapeChar(c: char): string {
    var n := c as int;
    if IsPlain(c) then [c]
    else if c == '"' || c == '\\' then ['\\', c]
    else if c == '\n' then "\\n"
    else if c == '\r' then "\\r"
    else if c == '\t' then "\\t"
    else if n == 12 then "\\f"
    else if n == 8 then "\\b"
    else Units(n)
  }

  /** Whether the escape of `c` is of the \uXXXX form. */
  predicate IsUnitEscaped(c: char) {
    var n := c as int;
    !IsPlain(c) && c != '"' && c != '\\' && c != '\n' && c != '\r' && c != '\t' && n != 12 && n != 8
  }

  function Escaped(s: string): string {
    if s == "" then "" else EscapeChar(s[0]) + Escaped(s[1..])
  }

  function Quoted(s: string): string {
    "\"" + Escaped(s) + "\""
  }

  function Dumps(v: Json): string
    decreases v
  {
    match v
    case Atom(text) => text
    case Str(s) => Quoted(s)
    case Arr(items) => "[" + DumpsItems(items) + "]"
    case Obj(fields) => "{" + DumpsFields(fields) + "}"
  }

  function DumpsItems(items: seq<Json>): string
    decreases items
  {
    if items == [] then ""
    else Dumps(items[0]) + (if |items| == 1 then "" else ", " + DumpsItems(items[1..]))
  }

  function DumpsField(f: Field): string
    decreases f
  {
    Quoted(f.key) + ": " + Dumps(f.value)
  }

  function DumpsFields(fields: seq<Field>): string
    decreases fields
  {
    if fields == [] then ""
    else DumpsField(fields[0]) + (if |fields| == 1 then "" else ", " + DumpsFields(fields[1..]))
  }

  /* ---------- The text determines the value ---------- */

  lemma SplitEqual(p: string, x: string, q: string, y: string)
    requires |p| == |q| && p + x == q + y
    ensures p == q && x == y
  {
    assert (p + x)[..|p|] == p && (q + y)[..|q|] == q;
    assert (p + x)[|p|..] == x && (q + y)[|q|..] == y;
  }

  lemma HexDigitInjective(a: nat, b: nat)
    requires a < 16 && b < 16 && HexDigit(a) == HexDigit(b)
    ensures a == b
  {
  }

  lemma DigitsDetermine(a: nat, b: nat)
    requires a / 4096 == b / 4096 && a / 256 % 16 == b / 256 % 16 && a / 16 % 16 == b / 16 % 16 && a % 16 == b % 16
    ensures a == b
  {
    Sixteenths(a);
    Sixteenths(b);
  }

  lemma Sixteenths(a: nat)
    ensures a == 16 * (a / 16) + a % 16
    ensures a / 16 == 16 * (a / 256) + a / 16 % 16
    ensures a / 256 == 16 * (a / 4096) + a / 256 % 16
  {
  }

  lemma UnitInjective(a: nat, b: nat, x: string, y: string)
    requires a < 0x10000 && b < 0x10000 && Unit(a) + x == Unit(b) + y
    ensures a == b && x == y
  {
    SplitEqual(Unit(a), x, Unit(b), y);
    var s, t := Unit(a), Unit(b);
    assert s[2] == t[2] && s[3] == t[3] && s[4] == t[4] && s[5] == t[5];
    HexDigitInjective(a / 4096, b / 4096);
    HexDigitInjective(a / 256 % 16, b / 256 % 16);
    HexDigitInjective(a / 16 % 16, b / 16 % 16);
    HexDigitInjective(a % 16, b % 16);
    DigitsDetermine(a, b);
  }

  /** The two code units of a character beyond the basic plane. */
  function High(n: nat): (u: nat)
    requires 0x10000 <= n < 0x110000
    ensures 0xD800 <= u < 0xDC00
  {
    0xD800 + (n - 0x10000) / 1024
  }

  function Low(n: nat): (u: nat)
    requires 0x10000 <= n < 0x110000
    ensures 0xDC00 <= u < 0xE000
  {
    0xDC00 + (n - 0x10000) % 1024
  }

  lemma PairDetermines(n: nat, m: nat)
    requires 0x10000 <= n < 0x110000 && 0x10000 <= m < 0x110000
    requires High(n) == High(m) && Low(n) == Low(m)
    ensures n == m
  {
  }

  /** The code unit a \uXXXX escape begins with, and what follows that unit. */
  function FirstUnit(n: nat): (u: nat)
    requires n < 0x110000
    ensures u < 0x10000
  {
    if n < 0x10000 then n else High(n)
  }

  function AfterFirstUnit(n: nat, x: string): string
    requires n < 0x110000
  {
    if n < 0x10000 then x else Unit(Low(n)) + x
  }

  predicate IsScalarValue(n: int) {
    0 <= n < 0xD800 || 0xE000 <= n < 0x110000
  }

  lemma UnitsInjective(n: nat, m: nat, x: string, y: string)
    requires IsScalarValue(n) && IsScalarValue(m) && Units(n) + x == Units(m) + y
    ensures n == m && x == y
  {
    UnitsSplit(n, x);
    UnitsSplit(m, y);
    UnitInjective(FirstUnit(n), FirstUnit(m), AfterFirstUnit(n, x), AfterFirstUnit(m, y));
    if n >= 0x10000 {
      UnitInjective(Low(n), Low(m), x, y);
      PairDetermines(n, m);
    }
  }

  lemma UnitsSplit(n: nat, x: string)
    requires n < 0x110000
    ensures Units(n) + x == Unit(FirstUnit(n)) + AfterFirstUnit(n, x)
  {
    if n >= 0x10000 {
      Associate(Unit(High(n)), Unit(Low(n)), x);
    }
  }

  /** No escape is the beginning of another one. */
  lemma EscapeCharInjective(c: char, d: char, x: string, y: string)
    requires EscapeChar(c) + x == EscapeChar(d) + y
    ensures c == d && x == y
  {
    var p, q := EscapeChar(c), EscapeChar(d);
    assert p[0] == (p + x)[0] && q[0] == (q + y)[0];
    if |p| > 1 && |q| > 1 {
      assert p[1] == (p + x)[1] && q[1] == (q + y)[1];
    }
    if IsUnitEscaped(c) && IsUnitEscaped(d) {
      UnitsInjective(c as int, d as int, x, y);
    } else {
      assert |p| == |q|;
      SplitEqual(p, x, q, y);
    }
  }

  /** The text of a string from behind its opening quote on, followed by `x`. */
  function Rest(s: string, x: string): string {
    if s == "" then "\"" + x else EscapeChar(s[0]) + Rest(s[1..], x)
  }

  lemma {:induction false} QuotedRest(s: string, x: string)
    ensures Escaped(s) + ("\"" + x) == Rest(s, x)
    decreases |s|
  {
    if s != "" {
      QuotedRest(s[1..], x);
      Associate(EscapeChar(s[0]), Escaped(s[1..]), "\"" + x);
    } else {
      assert "" + ("\"" + x) == "\"" + x;
    }
  }

  lemma RestLead(s: string, x: string)
    ensures Rest(s, x) != "" && (Rest(s, x)[0] == '"' <==> s == "")
  {
    if s != "" {
      assert EscapeChar(s[0]) != "" && EscapeChar(s[0])[0] != '"';
      assert Rest(s, x)[0] == EscapeChar(s[0])[0];
    }
  }

  lemma {:induction false} RestInjective(s: string, t: string, x: string, y: string)
    requires Rest(s, x) == Rest(t, y)
    ensures s == t && x == y
    decreases |s|
  {
    RestLead(s, x);
    RestLead(t, y);
    if s != "" && t != "" {
      EscapeCharInjective(s[0], t[0], Rest(s[1..], x), Rest(t[1..], y));
      RestInjective(s[1..], t[1..], x, y);
      assert s == [s[0]] + s[1..] && t == [t[0]] + t[1..];
    } else {
      SplitEqual("\"", x, "\"", y);
    }
  }

  lemma QuotedInjective(s: string, t: string, x: string, y: string)
    requires Quoted(s) + x == Quoted(t) + y
    ensures s == t && x == y
  {
    QuotedRest(s, x);
    QuotedRest(t, y);
    Bracketed("\"", Escaped(s), "\"", x);
    Bracketed("\"", Escaped(t), "\"", y);
    SplitEqual("\"", Rest(s, x), "\"", Rest(t, y));
    RestInjective(s, t, x, y);
  }

  /** Text that cannot continue an atom. */
  predicate Delimited(k: string) {
    k != "" ==> !IsAtomChar(k[0])
  }

  lemma {:induction false} AtomInjective(s: string, t: string, x: string, y: string)
    requires forall c | c in s :: IsAtomChar(c)
    requires forall c | c in t :: IsAtomChar(c)
    requires Delimited(x) && Delimited(y) && s + x == t + y
    ensures s == t && x == y
    decreases |s|
  {
    assert s != "" ==> (s + x)[0] == s[0] && s[0] in s && (s + x)[1..] == s[1..] + x;
    assert t != "" ==> (t + y)[0] == t[0] && t[0] in t && (t + y)[1..] == t[1..] + y;
    assert s == "" ==> s + x == x;
    assert t == "" ==> t + y == y;
    if s != "" && t != "" {
      AtomInjective(s[1..], t[1..], x, y);
      assert s == [s[0]] + s[1..] && t == [t[0]] + t[1..];
    }
  }

  /** The first character of a value's text tells its kind. */
  predicate HasKind(v: Json, c: char) {
    match v
    case Atom(_) => IsAtomChar(c)
    case Str(_) => c == '"'
    case Arr(_) => c == '['
    case Obj(_) => c == '{'
  }

  lemma DumpsLead(v: Json, k: string)
    requires AtomsOk(v)
    ensures |Dumps(v) + k| > 0 && HasKind(v, (Dumps(v) + k)[0])
  {
    assert Dumps(v) != "" && (Dumps(v) + k)[0] == Dumps(v)[0];
    if v.Atom? {
      assert v.text[0] in v.text;
    }
  }

  lemma SameKind(v: Json, w: Json, c: char)
    requires HasKind(v, c) && HasKind(w, c)
    ensures v.Atom? == w.Atom? && v.Str? == w.Str? && v.Arr? == w.Arr? && v.Obj? == w.Obj?
  {
  }

  /** What follows the opening bracket of a list, up to and including `x`. */
  function ItemsText(items: seq<Json>, x: string): string {
    DumpsItems(items) + ("]" + x)
  }

  function ItemsTail(items: seq<Json>, x: string): string {
    if |items| <= 1 then "]" + x else ", " + ItemsText(items[1..], x)
  }

  function FieldsText(fields: seq<Field>, x: string): string {
    DumpsFields(fields) + ("}" + x)
  }

  function FieldsTail(fields: seq<Field>, x: string): string {
    if |fields| <= 1 then "}" + x else ", " + FieldsText(fields[1..], x)
  }

  lemma ItemsSplit(items: seq<Json>, x: string)
    ensures items == [] ==> ItemsText(items, x) == "]" + x
    ensures items != [] ==> ItemsText(items, x) == Dumps(items[0]) + ItemsTail(items, x)
  {
    if |items| > 1 {
      Associate(Dumps(items[0]), ", " + DumpsItems(items[1..]), "]" + x);
      Associate(", ", DumpsItems(items[1..]), "]" + x);
    } else if items != [] {
      assert Dumps(items[0]) + "" == Dumps(items[0]);
    } else {
      assert "" + ("]" + x) == "]" + x;
    }
  }

  lemma FieldsSplit(fields: seq<Field>, x: string)
    ensures fields == [] ==> FieldsText(fields, x) == "}" + x
    ensures fields != [] ==>
              FieldsText(fields, x) == Quoted(fields[0].key) + (": " + (Dumps(fields[0].value) + FieldsTail(fields, x)))
  {
    if fields == [] {
      assert "" + ("}" + x) == "}" + x;
    } else {
      var key, value := Quoted(fields[0].key), Dumps(fields[0].value);
      if |fields| > 1 {
        Associate(DumpsField(fields[0]), ", " + DumpsFields(fields[1..]), "}" + x);
        Associate(", ", DumpsFields(fields[1..]), "}" + x);
      } else {
        assert DumpsField(fields[0]) + "" == DumpsField(fields[0]);
      }
      Associate(key + ": ", value, FieldsTail(fields, x));
      Associate(key, ": ", value + FieldsTail(fields, x));
    }
  }

  lemma {:induction false} DumpsInjective(v: Json, w: Json, x: string, y: string)
    requires AtomsOk(v) && AtomsOk(w) && Delimited(x) && Delimited(y)
    requires Dumps(v) + x == Dumps(w) + y
    ensures v == w && x == y
    decreases v
  {
    DumpsLead(v, x);
    DumpsLead(w, y);
    SameKind(v, w, (Dumps(v) + x)[0]);
    match v {
      case Atom(s) =>
        AtomInjective(s, w.text, x, y);
      case Str(s) =>
        QuotedInjective(s, w.s, x, y);
      case Arr(items) =>
        Bracketed("[", DumpsItems(items), "]", x);
        Bracketed("[", DumpsItems(w.items), "]", y);
        SplitEqual("[", ItemsText(items, x), "[", ItemsText(w.items, y));
        ItemsInjective(items, w.items, x, y);
      case Obj(fields) =>
        Bracketed("{", DumpsFields(fields), "}", x);
        Bracketed("{", DumpsFields(w.fields), "}", y);
        SplitEqual("{", FieldsText(fields, x), "{", FieldsText(w.fields, y));
        FieldsInjective(fields, w.fields, x, y);
    }
  }

  lemma Bracketed(open: string, inner: string, close: string, x: string)
    ensures open + inner + close + x == open + (inner + (close + x))
  {
    Associate(open + inner, close, x);
    Associate(open, inner, close + x);
  }

  lemma {:induction false} ItemsInjective(v: seq<Json>, w: seq<Json>, x: string, y: string)
    requires forall i | 0 <= i < |v| :: AtomsOk(v[i])
    requires forall i | 0 <= i < |w| :: AtomsOk(w[i])
    requires ItemsText(v, x) == ItemsText(w, y)
    ensures v == w && x == y
    decreases v
  {
    ItemsSplit(v, x);
    ItemsSplit(w, y);
    if v == [] && w == [] {
      SplitEqual("]", x, "]", y);
    } else if v == [] {
      DumpsLead(w[0], ItemsTail(w, y));
    } else if w == [] {
      DumpsLead(v[0], ItemsTail(v, x));
    } else {
      DumpsInjective(v[0], w[0], ItemsTail(v, x), ItemsTail(w, y));
      assert v == [v[0]] + v[1..] && w == [w[0]] + w[1..];
      assert ItemsTail(v, x)[0] == ItemsTail(w, y)[0];
      if |v| == 1 {
        SplitEqual("]", x, "]", y);
      } else {
        SplitEqual(", ", ItemsText(v[1..], x), ", ", ItemsText(w[1..], y));
        ItemsInjective(v[1..], w[1..], x, y);
      }
    }
  }

  lemma {:induction false} FieldsInjective(v: seq<Field>, w: seq<Field>, x: string, y: string)
    requires forall i | 0 <= i < |v| :: AtomsOk(v[i].value)
    requires forall i | 0 <= i < |w| :: AtomsOk(w[i].value)
    requires FieldsText(v, x) == FieldsText(w, y)
    ensures v == w && x == y
    decreases v
  {
    FieldsSplit(v, x);
    FieldsSplit(w, y);
    assert v != [] ==> FieldsText(v, x)[0] == '"';
    assert w != [] ==> FieldsText(w, y)[0] == '"';
    if v == [] {
      SplitEqual("}", x, "}", y);
    } else {
      var p, q := Dumps(v[0].value) + FieldsTail(v, x), Dumps(w[0].value) + FieldsTail(w, y);
      QuotedInjective(v[0].key, w[0].key, ": " + p, ": " + q);
      SplitEqual(": ", p, ": ", q);
      DumpsInjective(v[0].value, w[0].value, FieldsTail(v, x), FieldsTail(w, y));
      assert v == [v[0]] + v[1..] && w == [w[0]] + w[1..];
      assert FieldsTail(v, x)[0] == FieldsTail(w, y)[0];
      if |v| == 1 {
        SplitEqual("}", x, "}", y);
      } else {
        SplitEqual(", ", FieldsText(v[1..], x), ", ", FieldsText(w[1..], y));
        FieldsInjective(v[1..], w[1..], x, y);
      }
    }
  }

  /** Two values with the same text are the same value. */
  lemma TextDeterminesValue(v: Json, w: Json)
    requires AtomsOk(v) && AtomsOk(w) && Dumps(v) == Dumps(w)
    ensures v == w
  {
    assert Dumps(v) + "" == Dumps(w) + "";
    DumpsInjective(v, w, "", "");
  }

  /* ---------- What the escapes stand for ---------- */

  /** The letter behind the backslash, and the character meant (section 7 of RFC 8259). */
  function Shortcuts(): map<char, int> {
    map['"' := 0x22, '\\' := 0x5C, '/' := 0x2F, 'b' := 0x08, 'f' := 0x0C, 'n' := 0x0A, 'r' := 0x0D, 't' := 0x09]
  }

  function HexValue(c: char): int {
    if '0' <= c <= '9' then c as int - '0' as int else c as int - 'a' as int + 10
  }

  predicate IsUnitText(e: string) {
    |e| == 6 && e[0] == '\\' && e[1] == 'u' && forall k | 2 <= k < 6 :: '0' <= e[k] <= '9' || 'a' <= e[k] <= 'f'
  }

  function UnitValue(e: string): int
    requires IsUnitText(e)
  {
    4096 * HexValue(e[2]) + 256 * HexValue(e[3]) + 16 * HexValue(e[4]) + HexValue(e[5])
  }

  /** The text `e` inside quotes means the one character `c`: itself, a shortcut, a code unit or a surrogate pair. */
  predicate StandsFor(e: string, c: char) {
    || (e == [c] && 0x20 <= c as int && c != '"' && c != '\\')
    || (|e| == 2 && e[0] == '\\' && e[1] in Shortcuts() && Shortcuts()[e[1]] == c as int)
    || (IsUnitText(e) && UnitValue(e) == c as int)
    || (|e| == 12 && IsUnitText(e[..6]) && IsUnitText(e[6..]) &&
        0xD800 <= UnitValue(e[..6]) < 0xDC00 && 0xDC00 <= UnitValue(e[6..]) < 0xE000 &&
        c as int == 0x10000 + 1024 * (UnitValue(e[..6]) - 0xD800) + (UnitValue(e[6..]) - 0xDC00))
  }

  predicate IsAscii(e: string) {
    forall k | 0 <= k < |e| :: 0x20 <= e[k] as int < 0x7F
  }

  lemma HexDigitReads(n: nat)
    requires n < 16
    ensures HexValue(HexDigit(n)) == n && ('0' <= HexDigit(n) <= '9' || 'a' <= HexDigit(n) <= 'f')
  {
  }

  lemma UnitReads(n: nat)
    requires n < 0x10000
    ensures IsUnitText(Unit(n)) && UnitValue(Unit(n)) == n && IsAscii(Unit(n))
  {
    HexDigitReads(n / 4096);
    HexDigitReads(n / 256 % 16);
    HexDigitReads(n / 16 % 16);
    HexDigitReads(n % 16);
    Sixteenths(n);
  }

  lemma UnitsRead(c: char)
    ensures StandsFor(Units(c as int), c) && IsAscii(Units(c as int))
  {
    var n := c as int;
    if n < 0x10000 {
      UnitReads(n);
    } else {
      UnitReads(High(n));
      UnitReads(Low(n));
      assert Units(n)[..6] == Unit(High(n)) && Units(n)[6..] == Unit(Low(n));
    }
  }

  /** Every escape is ASCII, and means its character. */
  lemma EscapeReads(c: char)
    ensures StandsFor(EscapeChar(c), c) && IsAscii(EscapeChar(c))
  {
    if IsUnitEscaped(c) {
      UnitsRead(c);
    }
  }

  /** The text `e` inside quotes means the string `s`, character by character. */
  predicate Means(e: string, s: string)
    decreases |s|
  {
    if s == "" then e == ""
    else exists k | 0 < k <= |e| :: StandsFor(e[..k], s[0]) && Means(e[k..], s[1..])
  }

  lemma {:induction false} EscapedMeans(s: string)
    ensures Means(Escaped(s), s) && IsAscii(Escaped(s))
  {
    if s != "" {
      EscapeReads(s[0]);
      EscapedMeans(s[1..]);
      var e, x := EscapeChar(s[0]), Escaped(s[1..]);
      assert (e + x)[..|e|] == e && (e + x)[|e|..] == x;
    }
  }

  /* ---------- The text is JSON ---------- */

  predicate IsBlank(t: string) {
    forall k | 0 <= k < |t| :: t[k] in " \t\n\r"
  }

  predicate StringText(t: string, s: string) {
    |t| >= 2 && t[0] == '"' && t[|t| - 1] == '"' && Means(t[1..|t| - 1], s)
  }

  /** A text of the value with white space around it (section 2 of RFC 8259). */
  ghost predicate ValueText(t: string, v: Json)
    decreases v, 1
  {
    exists i, j :: 0 <= i <= j <= |t| && IsBlank(t[..i]) && IsBlank(t[j..]) && PlainText(t[i..j], v)
  }

  /** A text of the value: an atom, a string, an array or an object (sections 3 to 7 of RFC 8259). */
  ghost predicate PlainText(t: string, v: Json)
    decreases v, 0
  {
    match v
    case Atom(text) => t == text
    case Str(s) => StringText(t, s)
    case Arr(items) => |t| >= 2 && t[0] == '[' && t[|t| - 1] == ']' && ArrayText(t[1..|t| - 1], items)
    case Obj(fields) => |t| >= 2 && t[0] == '{' && t[|t| - 1] == '}' && ObjectText(t[1..|t| - 1], fields)
  }

  ghost predicate ArrayText(t: string, items: seq<Json>)
    decreases items, 2
  {
    if items == [] then IsBlank(t)
    else if |items| == 1 then ValueText(t, items[0])
    else exists k :: 0 <= k < |t| && t[k] == ',' && ValueText(t[..k], items[0]) && ArrayText(t[k + 1..], items[1..])
  }

  ghost predicate MemberText(t: string, f: Field)
    decreases f, 2
  {
    exists k :: 0 <= k < |t| && t[k] == ':' && ValueText(t[k + 1..], f.value) &&
      exists i, j :: 0 <= i <= j <= k && IsBlank(t[..i]) && IsBlank(t[j..k]) && StringText(t[i..j], f.key)
  }

  ghost predicate ObjectText(t: string, fields: seq<Field>)
    decreases fields, 3
  {
    if fields == [] then IsBlank(t)
    else if |fields| == 1 then MemberText(t, fields[0])
    else exists k :: 0 <= k < |t| && t[k] == ',' && MemberText(t[..k], fields[0]) && ObjectText(t[k + 1..], fields[1..])
  }

  lemma QuotedIsString(s: string)
    ensures StringText(Quoted(s), s)
  {
    EscapedMeans(s);
    assert Quoted(s)[1..|Quoted(s)| - 1] == Escaped(s);
  }

  /** Behind a blank or none, a text of the value stays one. */
  lemma BlankInFront(b: string, t: string, v: Json)
    requires IsBlank(b) && PlainText(t, v)
    ensures ValueText(b + t, v)
  {
    var u := b + t;
    assert u[..|b|] == b && u[|u|..] == "" && u[|b|..|u|] == t;
    assert IsBlank(u[..|b|]) && IsBlank(u[|u|..]) && PlainText(u[|b|..|u|], v);
  }

  lemma Cut(first: string, rest: string)
    ensures var t := first + "," + rest; t[..|first|] == first && t[|first|] == ',' && t[|first| + 1..] == rest
  {
  }

  lemma ArrayStep(first: string, rest: string, items: seq<Json>)
    requires |items| > 1 && ValueText(first, items[0]) && ArrayText(rest, items[1..])
    ensures ArrayText(first + "," + rest, items)
  {
    Cut(first, rest);
  }

  lemma ObjectStep(first: string, rest: string, fields: seq<Field>)
    requires |fields| > 1 && MemberText(first, fields[0]) && ObjectText(rest, fields[1..])
    ensures ObjectText(first + "," + rest, fields)
  {
    Cut(first, rest);
  }

  lemma MoreFollows(b: string, first: string, rest: string)
    ensures b + (first + (", " + rest)) == b + first + "," + (" " + rest)
  {
  }

  lemma ColonFollows(b: string, key: string, value: string)
    ensures b + (key + ": " + value) == b + key + ":" + (" " + value)
  {
  }

  /** What is printed is a JSON text of that very value. */
  lemma {:induction false} DumpsIsJson(v: Json)
    ensures PlainText(Dumps(v), v)
    decreases v, 1
  {
    var t := Dumps(v);
    match v
    case Atom(_) =>
    case Str(s) => QuotedIsString(s);
    case Arr(items) =>
      ItemsAreJson("", items);
      assert t[1..|t| - 1] == DumpsItems(items) == "" + DumpsItems(items);
    case Obj(fields) =>
      FieldsAreJson("", fields);
      assert t[1..|t| - 1] == DumpsFields(fields) == "" + DumpsFields(fields);
  }

  lemma {:induction false} ItemsAreJson(b: string, items: seq<Json>)
    requires IsBlank(b)
    ensures ArrayText(b + DumpsItems(items), items)
    decreases items, 2
  {
    if items != [] {
      var first := b + Dumps(items[0]);
      DumpsIsJson(items[0]);
      BlankInFront(b, Dumps(items[0]), items[0]);
      if |items| == 1 {
        assert b + DumpsItems(items) == first;
      } else {
        ItemsAreJson(" ", items[1..]);
        ArrayStep(first, " " + DumpsItems(items[1..]), items);
        MoreFollows(b, Dumps(items[0]), DumpsItems(items[1..]));
      }
    }
  }

  lemma {:induction false} FieldIsJson(b: string, f: Field)
    requires IsBlank(b)
    ensures MemberText(b + DumpsField(f), f)
    decreases f, 2
  {
    QuotedIsString(f.key);
    DumpsIsJson(f.value);
    BlankInFront(" ", Dumps(f.value), f.value);
    MemberParts(b, Quoted(f.key), " " + Dumps(f.value), f);
    ColonFollows(b, Quoted(f.key), Dumps(f.value));
  }

  lemma MemberParts(b: string, q: string, x: string, f: Field)
    requires IsBlank(b) && StringText(q, f.key) && ValueText(x, f.value)
    ensures MemberText(b + q + ":" + x, f)
  {
    var t, k := b + q + ":" + x, |b| + |q|;
    assert t[k] == ':' && t[k + 1..] == x;
    assert t[..|b|] == b && t[k..k] == "" && t[|b|..k] == q;
    assert IsBlank(t[..|b|]) && IsBlank(t[k..k]) && StringText(t[|b|..k], f.key);
  }

  lemma {:induction false} FieldsAreJson(b: string, fields: seq<Field>)
    requires IsBlank(b)
    ensures ObjectText(b + DumpsFields(fields), fields)
    decreases fields, 3
  {
    if fields != [] {
      var first := b + DumpsField(fields[0]);
      FieldIsJson(b, fields[0]);
      if |fields| == 1 {
        assert b + DumpsFields(fields) == first;
      } else {
        FieldsAreJson(" ", fields[1..]);
        ObjectStep(first, " " + DumpsFields(fields[1..]), fields);
        MoreFollows(b, DumpsField(fields[0]), DumpsFields(fields[1..]));
      }
    }
  }
}
