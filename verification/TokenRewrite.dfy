/**
 The token rewriter of alembic/versions/pv1_namespaced_variables.py: the one regular expression
 it substitutes, the name map, and why a second run finds nothing to do.
 */
module TokenRewrite {
  import opened Common

  /* ---------- The alphabet of the token expression ---------- */

  /** What `\s` matches; with `wide` false only the blank, which is all that survives in printed JSON. */
  predicate IsSpace(wide: bool, c: char) {
    c == ' ' || (wide &&
      var n := c as int;
      || 9 <= n <= 13 || 28 <= n <= 31 || n == 0x85 || n == 0xA0 || n == 0x1680 || 0x2000 <= n <= 0x200A
      || n == 0x2028 || n == 0x2029 || n == 0x202F || n == 0x205F || n == 0x3000)
  }

  predicate IsLower(c: char) { 'a' <= c <= 'z' }
  predicate IsDigit(c: char) { '0' <= c <= '9' }

  predicate IsNameChar(c: char) {
    IsLower(c) || 'A' <= c <= 'Z' || IsDigit(c) || c == '_' || c == '.' || c == '[' || c == ']'
  }

  predicate AllSpace(wide: bool, s: string) { forall c | c in s :: IsSpace(wide, c) }
  predicate AllName(s: string) { forall c | c in s :: IsNameChar(c) }

  /** A name the expression can capture. */
  predicate IsName(s: string) { s != "" && AllName(s) }

  /* ---------- Matching at one position ---------- */

  datatype Token = Token(name: string, length: nat)

  /** White space up to the closing braces; the number of characters used. */
  function Close(wide: bool, s: string): Option<nat>
    decreases |s|
  {
    if |s| >= 2 && s[0] == '}' && s[1] == '}' then Some(2)
    else if s != "" && IsSpace(wide, s[0]) then
      (match Close(wide, s[1..]) case Some(n) => Some(n + 1) case None => None)
    else None
  }

  function NameAndClose(wide: bool, s: string): Option<Token>
    requires s != "" && IsNameChar(s[0])
    decreases |s|
  {
    if |s| > 1 && IsNameChar(s[1]) then
      (match NameAndClose(wide, s[1..])
       case Some(t) => Some(Token([s[0]] + t.name, t.length + 1))
       case None => None)
    else
      (match Close(wide, s[1..]) case Some(n) => Some(Token([s[0]], n + 1)) case None => None)
  }

  /** What follows the opening braces. */
  function Body(wide: bool, s: string): Option<Token>
    decreases |s|
  {
    if s == "" then None
    else if IsSpace(wide, s[0]) then
      (match Body(wide, s[1..]) case Some(t) => Some(t.(length := t.length + 1)) case None => None)
    else if IsNameChar(s[0]) then NameAndClose(wide, s)
    else None
  }

  function MatchAt(wide: bool, s: string): Option<Token> {
    if |s| >= 2 && s[0] == '{' && s[1] == '{' then
      (match Body(wide, s[2..]) case Some(t) => Some(t.(length := t.length + 2)) case None => None)
    else None
  }

  function BodyText(lead: string, name: string, trail: string): string {
    lead + name + trail + "}}"
  }

  ghost predicate IsBody(wide: bool, text: string, lead: string, name: string, trail: string) {
    text == BodyText(lead, name, trail) && AllSpace(wide, lead) && AllSpace(wide, trail) && IsName(name)
  }

  /** The language of the expression, read off its text. */
  ghost predicate IsToken(wide: bool, text: string, name: string) {
    "{{" <= text && exists lead, trail :: IsBody(wide, text[2..], lead, name, trail)
  }

  lemma {:induction false} CloseExact(wide: bool, trail: string, rest: string)
    requires AllSpace(wide, trail)
    ensures Close(wide, trail + "}}" + rest) == Some(|trail| + 2)
    decreases |trail|
  {
    var s := trail + "}}" + rest;
    if trail != "" {
      assert trail[0] in trail && s[1..] == trail[1..] + "}}" + rest;
      CloseExact(wide, trail[1..], rest);
    }
  }

  lemma SliceOfTail(s: string, i: nat, j: nat)
    requires 1 <= i <= j <= |s|
    ensures s[i..j] == s[1..][i - 1..j - 1]
  {
    var a, b := s[i..j], s[1..][i - 1..j - 1];
    assert |a| == |b|;
    assert forall k | 0 <= k < |a| :: a[k] == s[i + k] && b[k] == s[1..][i - 1 + k];
  }

  lemma {:induction false} CloseSound(wide: bool, s: string)
    requires Close(wide, s).Some?
    ensures var n := Close(wide, s).value;
            2 <= n <= |s| && s[n - 2..n] == "}}" && AllSpace(wide, s[..n - 2])
    decreases |s|
  {
    var n := Close(wide, s).value;
    if !(|s| >= 2 && s[0] == '}' && s[1] == '}') {
      CloseSound(wide, s[1..]);
      SliceOfTail(s, n - 2, n);
      SliceOfTail(s, 1, n - 2);
      assert s[..n - 2] == [s[0]] + s[1..n - 2];
      assert s[1..][0..n - 3] == s[1..][..n - 3];
    }
  }

  lemma DropFirst(name: string, trail: string, rest: string)
    requires name != ""
    ensures var s := name + trail + "}}" + rest;
            s[0] == name[0] && s[1..] == name[1..] + trail + "}}" + rest
  {
  }

  lemma EmptyName(name: string, trail: string, rest: string)
    requires |name| == 1
    ensures name == [name[0]] && name[1..] + trail + "}}" + rest == trail + "}}" + rest
  {
    assert name[1..] == "";
  }

  lemma {:induction false} NameExact(wide: bool, s: string, name: string, trail: string, rest: string)
    requires IsName(name) && AllSpace(wide, trail) && s == name + trail + "}}" + rest
    ensures IsNameChar(s[0]) && NameAndClose(wide, s) == Some(Token(name, |name| + |trail| + 2))
    decreases |name|
  {
    assert name[0] in name;
    DropFirst(name, trail, rest);
    if |name| > 1 {
      assert name[1] in name;
      NameExact(wide, s[1..], name[1..], trail, rest);
      assert name == [name[0]] + name[1..];
    } else {
      EmptyName(name, trail, rest);
      CloseExact(wide, trail, rest);
      CloseIsNotName(wide, s[1..], trail, rest);
    }
  }

  lemma CloseIsNotName(wide: bool, s: string, trail: string, rest: string)
    requires AllSpace(wide, trail) && s == trail + "}}" + rest
    ensures s != "" && !IsNameChar(s[0])
  {
    assert trail != "" ==> trail[0] in trail && s[0] == trail[0];
  }

  /** `s` starts with a name, white space and the closing braces, as token `t` says. */
  ghost predicate StartsWithName(wide: bool, s: string, t: Token) {
    && IsName(t.name) && |t.name| + 2 <= t.length <= |s|
    && s[..|t.name|] == t.name
    && AllSpace(wide, s[|t.name|..t.length - 2])
    && s[t.length - 2..t.length] == "}}"
  }

  lemma NameGrows(wide: bool, s: string, t: Token)
    requires s != "" && IsNameChar(s[0]) && StartsWithName(wide, s[1..], t)
    ensures StartsWithName(wide, s, Token([s[0]] + t.name, t.length + 1))
  {
    var k := |t.name| + 1;
    SliceOfTail(s, k, t.length - 1);
    SliceOfTail(s, t.length - 1, t.length + 1);
    SliceOfTail(s, 1, k);
    assert s[1..][..k - 1] == s[1..][0..k - 1];
    assert s[..k] == [s[0]] + s[1..k];
  }

  lemma NameStarts(wide: bool, s: string, n: nat)
    requires s != "" && IsNameChar(s[0]) && 2 <= n <= |s| - 1
    requires s[1..][n - 2..n] == "}}" && AllSpace(wide, s[1..][..n - 2])
    ensures StartsWithName(wide, s, Token([s[0]], n + 1))
  {
    SliceOfTail(s, 1, n - 1);
    SliceOfTail(s, n - 1, n + 1);
    assert s[1..][..n - 2] == s[1..][0..n - 2];
    assert s[..1] == [s[0]];
  }

  lemma {:induction false} NameSound(wide: bool, s: string)
    requires s != "" && IsNameChar(s[0]) && NameAndClose(wide, s).Some?
    ensures StartsWithName(wide, s, NameAndClose(wide, s).value)
    decreases |s|
  {
    if |s| > 1 && IsNameChar(s[1]) {
      NameSound(wide, s[1..]);
      NameGrows(wide, s, NameAndClose(wide, s[1..]).value);
    } else {
      CloseSound(wide, s[1..]);
      NameStarts(wide, s, Close(wide, s[1..]).value);
    }
  }

  lemma {:induction false} BodyExact(wide: bool, lead: string, name: string, trail: string, rest: string)
    requires AllSpace(wide, lead) && IsName(name) && AllSpace(wide, trail)
    ensures Body(wide, BodyText(lead, name, trail) + rest) == Some(Token(name, |lead| + |name| + |trail| + 2))
    decreases |lead|
  {
    var s := BodyText(lead, name, trail) + rest;
    if lead == "" {
      assert s == name + trail + "}}" + rest && name[0] in name;
      NameExact(wide, s, name, trail, rest);
    } else {
      assert lead[0] in lead && s[1..] == BodyText(lead[1..], name, trail) + rest;
      BodyExact(wide, lead[1..], name, trail, rest);
    }
  }

  lemma {:induction false} BodySound(wide: bool, s: string) returns (lead: string, trail: string)
    requires Body(wide, s).Some?
    ensures var t := Body(wide, s).value;
            t.length <= |s| && IsBody(wide, s[..t.length], lead, t.name, trail)
    decreases |s|
  {
    var t := Body(wide, s).value;
    if IsSpace(wide, s[0]) {
      var lead1;
      lead1, trail := BodySound(wide, s[1..]);
      lead := [s[0]] + lead1;
      ConsBody(s[0], lead1, t.name, trail);
      assert s[..t.length] == [s[0]] + s[1..][..t.length - 1];
    } else {
      NameSound(wide, s);
      lead, trail := "", s[|t.name|..t.length - 2];
      NameIsBody(wide, s, t);
    }
  }

  lemma NameIsBody(wide: bool, s: string, t: Token)
    requires StartsWithName(wide, s, t)
    ensures IsBody(wide, s[..t.length], "", t.name, s[|t.name|..t.length - 2])
  {
    ThreeParts(s, |t.name|, t.length - 2, t.length);
    assert "" + t.name == t.name;
  }

  lemma ThreeParts(s: string, i: nat, j: nat, k: nat)
    requires i <= j <= k <= |s|
    ensures s[..k] == s[..i] + s[i..j] + s[j..k]
  {
  }

  lemma ConsBody(c: char, lead: string, name: string, trail: string)
    ensures [c] + BodyText(lead, name, trail) == BodyText([c] + lead, name, trail)
  {
    assert [c] + (lead + name + trail + "}}") == ([c] + lead) + name + trail + "}}";
  }

  lemma MatchIsToken(wide: bool, s: string)
    requires MatchAt(wide, s).Some?
    ensures var t := MatchAt(wide, s).value; t.length <= |s| && IsToken(wide, s[..t.length], t.name)
  {
    var t := MatchAt(wide, s).value;
    var lead, trail := BodySound(wide, s[2..]);
    assert s[..t.length][2..] == s[2..][..t.length - 2];
  }

  lemma TokenIsMatch(wide: bool, s: string, name: string, n: nat)
    requires n <= |s| && IsToken(wide, s[..n], name)
    ensures MatchAt(wide, s) == Some(Token(name, n))
  {
    var text := s[..n];
    var lead, trail :| IsBody(wide, text[2..], lead, name, trail);
    BodyExact(wide, lead, name, trail, s[n..]);
    assert s[2..] == text[2..] + s[n..];
    assert s[0] == text[0] && s[1] == text[1];
  }

  /** The matcher accepts exactly the prefixes that the expression describes, and there is at most one. */
  lemma MatchIffToken(wide: bool, s: string, name: string, n: nat)
    ensures MatchAt(wide, s) == Some(Token(name, n)) <==> n <= |s| && IsToken(wide, s[..n], name)
  {
    if MatchAt(wide, s) == Some(Token(name, n)) {
      MatchIsToken(wide, s);
    }
    if n <= |s| && IsToken(wide, s[..n], name) {
      TokenIsMatch(wide, s, name, n);
    }
  }

  lemma MatchLength(wide: bool, s: string)
    requires MatchAt(wide, s).Some?
    ensures 5 <= MatchAt(wide, s).value.length <= |s| && IsName(MatchAt(wide, s).value.name)
  {
    var lead, trail := BodySound(wide, s[2..]);
  }

  /* ---------- The name map ---------- */

  function Scalar(name: string): Option<string> {
    if name == "client_service_id" then Some("service.id")
    else if name == "service_plan_id" then Some("service_plan.id")
    else if name == "download_mbps" then Some("service_plan.download_mbps")
    else if name == "upload_mbps" then Some("service_plan.upload_mbps")
    else None
  }

  /** How many leading characters are digits. */
  function DigitRun(s: string): (n: nat)
    ensures n <= |s| && forall i | 0 <= i < n :: IsDigit(s[i])
  {
    if s != "" && IsDigit(s[0]) then 1 + DigitRun(s[1..]) else 0
  }

  const DEVICE := "device"
  const ATTRIBUTES := ["item_id", "serial", "mac", "type", "category_tier"]

  /** device<digits>_<attribute>: the digits and the attribute. */
  function DeviceParts(name: string): Option<(string, string)> {
    if !(DEVICE <= name) then None
    else
      var rest := name[|DEVICE|..];
      var n := DigitRun(rest);
      if n > 0 && n < |rest| && rest[n] == '_' && rest[n + 1..] in ATTRIBUTES then Some((rest[..n], rest[n + 1..]))
      else None
  }

  /** The decimal text of the number that `digits` denote. */
  function Canonical(digits: string): string {
    if |digits| > 1 && digits[0] == '0' then Canonical(digits[1..]) else digits
  }

  predicate HasSuffix(s: string, t: string) {
    |t| <= |s| && s[|s| - |t|..] == t
  }

  predicate IsAliasStem(s: string) {
    s != "" && IsLower(s[0]) && forall c | c in s :: IsLower(c) || IsDigit(c) || c == '_'
  }

  predicate IsRetiredAlias(name: string) {
    || (HasSuffix(name, "_serial") && IsAliasStem(name[..|name| - |"_serial"|]))
    || (HasSuffix(name, "_mac") && IsAliasStem(name[..|name| - |"_mac"|]))
  }

  predicate IsNamespaced(name: string) {
    '.' in name || '[' in name
  }

  /** The device at a position of the chain. */
  function DeviceTerm(digits: string, attribute: string): string {
    "chain[" + Canonical(digits) + "]." + attribute
  }

  function MapName(name: string): string {
    if IsNamespaced(name) then name
    else if Scalar(name).Some? then Scalar(name).value
    else if DeviceParts(name).Some? then
      var (digits, attribute) := DeviceParts(name).value;
      DeviceTerm(digits, attribute)
    else if IsRetiredAlias(name) then "RETIRED_ALIAS." + name
    else "input." + name
  }

  lemma {:induction false} CanonicalIsDigits(digits: string)
    requires forall c | c in digits :: IsDigit(c)
    ensures forall c | c in Canonical(digits) :: IsDigit(c)
    decreases |digits|
  {
    if |digits| > 1 && digits[0] == '0' {
      CanonicalIsDigits(digits[1..]);
    }
  }

  lemma AllNameConcat(s: string, t: string)
    requires AllName(s) && AllName(t)
    ensures AllName(s + t)
  {
  }

  lemma ScalarIsNamespaced(name: string)
    requires Scalar(name).Some?
    ensures IsName(Scalar(name).value) && IsNamespaced(Scalar(name).value)
  {
    var mapped := Scalar(name).value;
    assert mapped[7] == '.' || mapped[12] == '.';
  }

  lemma DeviceIsNamespaced(name: string)
    requires IsName(name) && DeviceParts(name).Some?
    ensures var (digits, attribute) := DeviceParts(name).value;
            var mapped := DeviceTerm(digits, attribute);
            IsName(mapped) && IsNamespaced(mapped)
  {
    var (digits, attribute) := DeviceParts(name).value;
    var mapped := DeviceTerm(digits, attribute);
    CanonicalIsDigits(digits);
    assert mapped[5] == '[';
    AllNameConcat("chain[", Canonical(digits));
    AllNameConcat("chain[" + Canonical(digits), "].");
    AllNameConcat("chain[" + Canonical(digits) + "].", attribute);
  }

  lemma PrefixedIsNamespaced(prefix: string, name: string)
    requires AllName(prefix) && '.' in prefix && IsName(name)
    ensures IsName(prefix + name) && IsNamespaced(prefix + name)
  {
    AllNameConcat(prefix, name);
    var i :| 0 <= i < |prefix| && prefix[i] == '.';
    assert (prefix + name)[i] == '.';
  }

  /** Mapped names are namespaced, stay in the alphabet of the expression, and map to themselves. */
  lemma MapNameIsNamespaced(name: string)
    requires IsName(name)
    ensures IsName(MapName(name)) && IsNamespaced(MapName(name)) && MapName(MapName(name)) == MapName(name)
  {
    if IsNamespaced(name) {
    } else if Scalar(name).Some? {
      ScalarIsNamespaced(name);
    } else if DeviceParts(name).Some? {
      DeviceIsNamespaced(name);
    } else if IsRetiredAlias(name) {
      assert "RETIRED_ALIAS."[13] == '.';
      PrefixedIsNamespaced("RETIRED_ALIAS.", name);
    } else {
      assert "input."[5] == '.';
      PrefixedIsNamespaced("input.", name);
    }
  }

  lemma ScalarMaps(name: string)
    requires Scalar(name).Some?
    ensures !IsNamespaced(name) && Some(MapName(name)) == Scalar(name)
  {
    forall c | c in name ensures c != '.' && c != '[' {
      var i :| 0 <= i < |name| && name[i] == c;
    }
  }

  /** The four scalars, spelled out with what they became. */
  lemma ScalarNames()
    ensures MapName("client_service_id") == "service.id"
    ensures MapName("service_plan_id") == "service_plan.id"
    ensures MapName("download_mbps") == "service_plan.download_mbps"
    ensures MapName("upload_mbps") == "service_plan.upload_mbps"
  {
    ScalarMaps("client_service_id");
    ScalarMaps("service_plan_id");
    ScalarMaps("download_mbps");
    ScalarMaps("upload_mbps");
  }

  lemma {:induction false} DigitRunStops(digits: string, rest: string)
    requires AllDigits(digits) && (rest != "" ==> !IsDigit(rest[0]))
    ensures DigitRun(digits + rest) == |digits|
    decreases |digits|
  {
    if digits == "" {
      assert digits + rest == rest;
    } else {
      assert digits[0] in digits && (digits + rest)[0] == digits[0] && (digits + rest)[1..] == digits[1..] + rest;
      DigitRunStops(digits[1..], rest);
    }
  }

  /** An attribute of the device at a position of the chain. */
  lemma DeviceName(digits: string, attribute: string)
    requires AllDigits(digits) && digits != "" && attribute in ATTRIBUTES
    ensures DeviceParts(DEVICE + digits + "_" + attribute) == Some((digits, attribute))
  {
    var name := DEVICE + digits + "_" + attribute;
    var rest := digits + ("_" + attribute);
    assert name[|DEVICE|..] == rest && DEVICE <= name;
    DigitRunStops(digits, "_" + attribute);
    assert rest[..|digits|] == digits && rest[|digits|] == '_' && rest[|digits| + 1..] == attribute;
  }

  /* ---------- Names that become one ---------- */

  predicate AllDigits(s: string) {
    forall c | c in s :: IsDigit(c)
  }

  /** What `int` makes of decimal digits. */
  function Number(digits: string): nat
    requires AllDigits(digits)
  {
    if digits == "" then 0
    else
      assert digits[|digits| - 1] in digits;
      10 * Number(digits[..|digits| - 1]) + (digits[|digits| - 1] as int - '0' as int)
  }

  lemma {:induction false} LeadingZero(digits: string)
    requires AllDigits(digits) && |digits| > 1 && digits[0] == '0'
    ensures Number(digits) == Number(digits[1..])
    decreases |digits|
  {
    var front := digits[..|digits| - 1];
    assert digits[1..][..|digits| - 2] == front[1..];
    if |digits| > 2 {
      LeadingZero(front);
    }
  }

  lemma {:induction false} CanonicalKeepsNumber(digits: string)
    requires AllDigits(digits)
    ensures AllDigits(Canonical(digits)) && Number(Canonical(digits)) == Number(digits)
    ensures digits != "" ==> IsCanonical(Canonical(digits))
    decreases |digits|
  {
    if |digits| > 1 && digits[0] == '0' {
      LeadingZero(digits);
      CanonicalKeepsNumber(digits[1..]);
    }
  }

  /** A decimal numeral without leading zeros. */
  predicate IsCanonical(digits: string) {
    digits != "" && (|digits| > 1 ==> digits[0] != '0')
  }

  lemma {:induction false} LongNumeralIsPositive(digits: string)
    requires AllDigits(digits) && digits != "" && digits[0] != '0'
    ensures Number(digits) >= 1 && (|digits| > 1 ==> Number(digits) >= 10)
    decreases |digits|
  {
    assert digits[|digits| - 1] in digits && digits[0] in digits;
    if |digits| > 1 {
      LongNumeralIsPositive(digits[..|digits| - 1]);
    }
  }

  lemma {:induction false} NumeralIsUnique(a: string, b: string)
    requires AllDigits(a) && AllDigits(b) && IsCanonical(a) && IsCanonical(b) && Number(a) == Number(b)
    ensures a == b
    decreases |a|
  {
    var m, n := |a| - 1, |b| - 1;
    assert a[m] in a && b[n] in b && a == a[..m] + [a[m]] && b == b[..n] + [b[n]];
    if m > 0 {
      LongNumeralIsPositive(a);
    }
    if n > 0 {
      LongNumeralIsPositive(b);
    }
    LastDigit(Number(a[..m]), a[m] as int - '0' as int, Number(b[..n]), b[n] as int - '0' as int);
    if m > 0 && n > 0 {
      NumeralIsUnique(a[..m], b[..n]);
    }
  }

  lemma LastDigit(x: nat, c: nat, y: nat, d: nat)
    requires c < 10 && d < 10 && 10 * x + c == 10 * y + d
    ensures x == y && c == d
  {
  }

  /** Canonical numerals tell numbers apart. */
  lemma CanonicalIff(a: string, b: string)
    requires AllDigits(a) && AllDigits(b) && a != "" && b != ""
    ensures Canonical(a) == Canonical(b) <==> Number(a) == Number(b)
  {
    CanonicalKeepsNumber(a);
    CanonicalKeepsNumber(b);
    if Number(a) == Number(b) {
      NumeralIsUnique(Canonical(a), Canonical(b));
    }
  }

  lemma {:induction false} DigitRunIsDigits(s: string)
    ensures AllDigits(s[..DigitRun(s)])
    decreases |s|
  {
    if s != "" && IsDigit(s[0]) {
      DigitRunIsDigits(s[1..]);
      assert s[..DigitRun(s)] == [s[0]] + s[1..][..DigitRun(s[1..])];
    }
  }

  lemma DevicePartsAreDigits(name: string)
    requires DeviceParts(name).Some?
    ensures DeviceParts(name).value.0 != "" && AllDigits(DeviceParts(name).value.0)
    ensures |name| >= 6 && name[0] == 'd' && name[1] == 'e' && Scalar(name).None?
  {
    DigitRunIsDigits(name[|DEVICE|..]);
    assert name[0] == DEVICE[0] && name[1] == DEVICE[1];
  }

  /** Two spellings of one device: the same attribute, and positions that are the same number. */
  predicate SameDevice(a: string, b: string) {
    && DeviceParts(a).Some? && DeviceParts(b).Some?
    && DeviceParts(a).value.1 == DeviceParts(b).value.1
    && AllDigits(DeviceParts(a).value.0) && AllDigits(DeviceParts(b).value.0)
    && Number(DeviceParts(a).value.0) == Number(DeviceParts(b).value.0)
  }

  lemma TermIsUnique(p: string, x: string, q: string, y: string)
    requires AllDigits(p) && AllDigits(q) && p + "]." + x == q + "]." + y
    ensures p == q && x == y
  {
    var s, t := p + "]." + x, q + "]." + y;
    BracketEnds(p, x, |q|);
    BracketEnds(q, y, |p|);
    assert s[..|p|] == p && t[..|q|] == q;
    assert s[|p| + 2..] == x && t[|q| + 2..] == y;
  }

  /** Digits do not reach past the first closing bracket. */
  lemma BracketEnds(p: string, x: string, n: nat)
    requires AllDigits(p)
    ensures var s := p + "]." + x; s[|p|] == ']' && (n < |p| ==> s[n] != ']')
  {
    assert n < |p| ==> p[n] in p;
  }

  lemma DeviceTermsIff(a: string, b: string)
    requires DeviceParts(a).Some? && DeviceParts(b).Some?
    ensures var d, e := DeviceParts(a).value, DeviceParts(b).value;
            DeviceTerm(d.0, d.1) == DeviceTerm(e.0, e.1) <==> SameDevice(a, b)
  {
    var d, e := DeviceParts(a).value, DeviceParts(b).value;
    DevicePartsAreDigits(a);
    DevicePartsAreDigits(b);
    CanonicalIff(d.0, e.0);
    CanonicalKeepsNumber(d.0);
    CanonicalKeepsNumber(e.0);
    if DeviceTerm(d.0, d.1) == DeviceTerm(e.0, e.1) {
      TermTail(Canonical(d.0), d.1);
      TermTail(Canonical(e.0), e.1);
      TermIsUnique(Canonical(d.0), d.1, Canonical(e.0), e.1);
    }
  }

  lemma TermTail(numeral: string, attribute: string)
    ensures ("chain[" + numeral + "]." + attribute)[6..] == numeral + "]." + attribute
  {
  }

  /** Which branch of the name map a flat name takes, read off the first character of its new name. */
  lemma MappedHead(name: string)
    requires !IsNamespaced(name)
    ensures MapName(name) != ""
    ensures MapName(name)[0] == 's' <==> Scalar(name).Some?
    ensures MapName(name)[0] == 'c' <==> Scalar(name).None? && DeviceParts(name).Some?
    ensures MapName(name)[0] == 'R' <==> Scalar(name).None? && DeviceParts(name).None? && IsRetiredAlias(name)
  {
  }

  lemma ScalarsDiffer(a: string, b: string)
    requires Scalar(a).Some? && Scalar(b).Some?
    ensures Scalar(a) == Scalar(b) <==> a == b
  {
    ScalarLength(a);
    ScalarLength(b);
  }

  lemma ScalarLength(a: string)
    requires Scalar(a).Some?
    ensures |Scalar(a).value| == (if a == "client_service_id" then 10 else if a == "service_plan_id" then 15
                                  else if a == "download_mbps" then 26 else 24)
    ensures a in {"client_service_id", "service_plan_id", "download_mbps", "upload_mbps"}
  {
  }

  lemma PrefixIsInjective(prefix: string, a: string, b: string)
    requires prefix + a == prefix + b
    ensures a == b
  {
    assert (prefix + a)[|prefix|..] == a && (prefix + b)[|prefix|..] == b;
  }

  /** Two flat names become one exactly when they are spellings of one device. */
  lemma FlatNamesMergeIff(a: string, b: string)
    requires !IsNamespaced(a) && !IsNamespaced(b)
    ensures MapName(a) == MapName(b) <==> a == b || SameDevice(a, b)
  {
    MappedHead(a);
    MappedHead(b);
    if DeviceParts(a).Some? && DeviceParts(b).Some? {
      DevicePartsAreDigits(a);
      DevicePartsAreDigits(b);
      DeviceTermsIff(a, b);
    } else if MapName(a) == MapName(b) {
      SameBranchSameName(a, b);
    }
  }

  lemma SameBranchSameName(a: string, b: string)
    requires !IsNamespaced(a) && !IsNamespaced(b) && MapName(a) == MapName(b)
    requires DeviceParts(a).None? || DeviceParts(b).None?
    ensures a == b
  {
    MappedHead(a);
    MappedHead(b);
    if Scalar(a).Some? {
      ScalarsDiffer(a, b);
    } else if IsRetiredAlias(a) {
      PrefixIsInjective("RETIRED_ALIAS.", a, b);
    } else {
      PrefixIsInjective("input.", a, b);
    }
  }

  /** Any two names: equal, spellings of one device, or the one is the new name of the other. */
  lemma NamesMergeIff(a: string, b: string)
    requires IsName(a) && IsName(b)
    ensures MapName(a) == MapName(b) <==>
            || a == b
            || (!IsNamespaced(a) && !IsNamespaced(b) && SameDevice(a, b))
            || (!IsNamespaced(a) && IsNamespaced(b) && b == MapName(a))
            || (IsNamespaced(a) && !IsNamespaced(b) && a == MapName(b))
  {
    if !IsNamespaced(a) && !IsNamespaced(b) {
      FlatNamesMergeIff(a, b);
    }
  }

  /* ---------- The substitution ---------- */

  /** Leftmost, non-overlapping substitution of every token. */
  function Rewrite(wide: bool, s: string): string
    decreases |s|
  {
    if s == "" then ""
    else
      var m := MatchAt(wide, s);
      if m.Some? then
        MatchLength(wide, s);
        "{{" + MapName(m.value.name) + "}}" + Rewrite(wide, s[m.value.length..])
      else [s[0]] + Rewrite(wide, s[1..])
  }

  lemma RewriteKeepsHead(wide: bool, s: string)
    ensures s == "" <==> Rewrite(wide, s) == ""
    ensures s != "" ==> Rewrite(wide, s)[0] == s[0]
  {
  }

  /** Text without an opening brace passes through. */
  lemma {:induction false} PassThrough(wide: bool, x: string, y: string)
    requires '{' !in x
    ensures Rewrite(wide, x + y) == x + Rewrite(wide, y)
    decreases |x|
  {
    var s := x + y;
    if x == "" {
      assert s == y;
    } else {
      assert x[0] in x && s[0] == x[0];
      assert MatchAt(wide, s).None?;
      assert s[1..] == x[1..] + y;
      PassThrough(wide, x[1..], y);
      Associate([x[0]], x[1..], Rewrite(wide, y));
      assert [x[0]] + x[1..] == x;
    }
  }

  lemma {:induction false} CloseKept(wide: bool, t: string)
    ensures Close(wide, Rewrite(wide, t)) == Close(wide, t)
    decreases |t|
  {
    RewriteKeepsHead(wide, t);
    if t != "" && t[0] != '{' {
      RewriteKeepsHead(wide, t[1..]);
      CloseKept(wide, t[1..]);
      assert Rewrite(wide, t)[1..] == Rewrite(wide, t[1..]);
    }
  }

  /** A first character other than a brace stays, and so does the kind of what follows. */
  lemma RewriteOfPlain(wide: bool, t: string)
    requires t != "" && t[0] != '{'
    ensures var r := Rewrite(wide, t);
            && r == [t[0]] + Rewrite(wide, t[1..]) && r[1..] == Rewrite(wide, t[1..])
            && (|r| > 1 <==> |t| > 1) && (|t| > 1 ==> r[1] == t[1])
  {
    RewriteKeepsHead(wide, t[1..]);
  }

  lemma {:induction false} NameKept(wide: bool, t: string)
    requires t != "" && IsNameChar(t[0])
    ensures Rewrite(wide, t) != "" && Rewrite(wide, t)[0] == t[0]
    ensures NameAndClose(wide, Rewrite(wide, t)) == NameAndClose(wide, t)
    decreases |t|
  {
    RewriteOfPlain(wide, t);
    if |t| > 1 && IsNameChar(t[1]) {
      NameKept(wide, t[1..]);
    } else {
      CloseKept(wide, t[1..]);
    }
    SameNameStep(wide, Rewrite(wide, t), t);
  }

  lemma SameNameStep(wide: bool, r: string, t: string)
    requires r != "" && t != "" && r[0] == t[0] && IsNameChar(t[0])
    requires (|r| > 1 <==> |t| > 1) && (|t| > 1 ==> r[1] == t[1])
    requires if |t| > 1 && IsNameChar(t[1]) then r[1..] != "" && IsNameChar(r[1..][0]) && NameAndClose(wide, r[1..]) == NameAndClose(wide, t[1..])
             else Close(wide, r[1..]) == Close(wide, t[1..])
    ensures NameAndClose(wide, r) == NameAndClose(wide, t)
  {
  }

  /** What follows a pair of opening braces is a token body after the rewriting exactly when it was one before. */
  lemma {:induction false} BodyKept(wide: bool, t: string)
    ensures Body(wide, Rewrite(wide, t)) == Body(wide, t)
    decreases |t|
  {
    RewriteKeepsHead(wide, t);
    if t != "" && t[0] != '{' {
      assert Rewrite(wide, t)[1..] == Rewrite(wide, t[1..]);
      if IsSpace(wide, t[0]) {
        BodyKept(wide, t[1..]);
      } else if IsNameChar(t[0]) {
        NameKept(wide, t);
      }
    }
  }

  /** No new token can begin where there was none: none straddles the end of a rewritten one. */
  lemma NoNewMatch(wide: bool, s: string)
    requires s != "" && MatchAt(wide, s).None?
    ensures MatchAt(wide, [s[0]] + Rewrite(wide, s[1..])).None?
  {
    var t := s[1..];
    var r := [s[0]] + Rewrite(wide, t);
    RewriteKeepsHead(wide, t);
    if s[0] == '{' && t != "" && t[0] == '{' {
      if MatchAt(wide, t).Some? {
        assert r[2] == '{' && r[2..][0] == '{';
      } else {
        assert r[2..] == Rewrite(wide, t[1..]) && s[2..] == t[1..];
        BodyKept(wide, t[1..]);
      }
    }
  }

  lemma CleanTokenMatches(wide: bool, name: string, rest: string)
    requires IsName(name)
    ensures MatchAt(wide, "{{" + name + "}}" + rest) == Some(Token(name, |name| + 4))
  {
    var s := "{{" + name + "}}" + rest;
    BodyExact(wide, "", name, "", rest);
    assert s[2..] == BodyText("", name, "") + rest;
  }

  lemma NoMatchInsideToken(wide: bool, name: string, rest: string, i: nat)
    requires IsName(name) && 0 < i < |name| + 4
    ensures MatchAt(wide, ("{{" + name + "}}" + rest)[i..]).None?
  {
    var s := "{{" + name + "}}" + rest;
    assert s[2] == name[0] && name[0] in name;
    assert 2 <= i < |name| + 2 ==> s[i] == name[i - 2] && name[i - 2] in name;
    assert s[i..][0] == s[i];
  }

  /** A second run changes nothing, on any string. */
  lemma {:induction false} RewriteIdempotent(wide: bool, s: string)
    ensures Rewrite(wide, Rewrite(wide, s)) == Rewrite(wide, s)
    decreases |s|
  {
    if s == "" {
    } else if MatchAt(wide, s).Some? {
      MatchLength(wide, s);
      var t := MatchAt(wide, s).value;
      var rest := Rewrite(wide, s[t.length..]);
      MapNameIsNamespaced(t.name);
      CleanTokenMatches(wide, MapName(t.name), rest);
      RewriteIdempotent(wide, s[t.length..]);
      var r := "{{" + MapName(t.name) + "}}" + rest;
      assert r[|MapName(t.name)| + 4..] == rest;
    } else {
      NoNewMatch(wide, s);
      RewriteIdempotent(wide, s[1..]);
      var r := [s[0]] + Rewrite(wide, s[1..]);
      assert r[1..] == Rewrite(wide, s[1..]);
    }
  }

  lemma SuffixBehind(p: string, s: string, i: nat)
    requires |p| <= i <= |p + s|
    ensures (p + s)[i..] == s[i - |p|..]
  {
  }

  /** A token at position `i` is namespaced and free of white space. */
  predicate CleanAt(wide: bool, s: string, i: nat)
    requires i <= |s|
  {
    var m := MatchAt(wide, s[i..]);
    m.Some? ==> IsNamespaced(m.value.name) && m.value.length == |m.value.name| + 4
  }

  lemma CleanBehind(wide: bool, p: string, s: string, i: nat)
    requires |p| <= i <= |p + s|
    ensures CleanAt(wide, p + s, i) <==> CleanAt(wide, s, i - |p|)
  {
    SuffixBehind(p, s, i);
  }

  lemma NamespacedTokenIsClean(wide: bool, name: string, rest: string, i: nat)
    requires IsName(name) && IsNamespaced(name) && i < |name| + 4
    ensures CleanAt(wide, "{{" + name + "}}" + rest, i)
  {
    var r := "{{" + name + "}}" + rest;
    if i == 0 {
      assert r[i..] == r;
      CleanTokenMatches(wide, name, rest);
    } else {
      NoMatchInsideToken(wide, name, rest, i);
    }
  }

  lemma CleanAfterToken(wide: bool, s: string, t: Token, i: nat)
    requires s != "" && MatchAt(wide, s) == Some(t) && t.length <= |s|
    requires var k, rest := |MapName(t.name)| + 4, Rewrite(wide, s[t.length..]);
             i >= k ==> i - k <= |rest| && CleanAt(wide, rest, i - k)
    ensures i <= |Rewrite(wide, s)| && CleanAt(wide, Rewrite(wide, s), i)
  {
    var name, rest := MapName(t.name), Rewrite(wide, s[t.length..]);
    MatchLength(wide, s);
    MapNameIsNamespaced(t.name);
    if i >= |name| + 4 {
      CleanBehind(wide, "{{" + name + "}}", rest, i);
    } else {
      NamespacedTokenIsClean(wide, name, rest, i);
    }
  }

  lemma CleanAfterChar(wide: bool, s: string, i: nat)
    requires s != "" && MatchAt(wide, s).None?
    requires i > 0 ==> i - 1 <= |Rewrite(wide, s[1..])| && CleanAt(wide, Rewrite(wide, s[1..]), i - 1)
    ensures i <= |Rewrite(wide, s)| && CleanAt(wide, Rewrite(wide, s), i)
  {
    if i > 0 {
      CleanBehind(wide, [s[0]], Rewrite(wide, s[1..]), i);
    } else {
      NoNewMatch(wide, s);
      assert Rewrite(wide, s)[0..] == Rewrite(wide, s);
    }
  }

  /** Wherever one looks in the output, a token is a namespaced one, without white space. */
  lemma {:induction false} NoFlatTokenLeft(wide: bool, s: string, i: nat)
    requires i <= |Rewrite(wide, s)|
    ensures CleanAt(wide, Rewrite(wide, s), i)
    decreases |s|
  {
    if s != "" && MatchAt(wide, s).Some? {
      MatchLength(wide, s);
      var t := MatchAt(wide, s).value;
      var k := |MapName(t.name)| + 4;
      if i >= k {
        NoFlatTokenLeft(wide, s[t.length..], i - k);
      }
      CleanAfterToken(wide, s, t, i);
    } else if s != "" {
      if i > 0 {
        NoFlatTokenLeft(wide, s[1..], i - 1);
      }
      CleanAfterChar(wide, s, i);
    }
  }

  predicate AllClean(wide: bool, s: string) {
    forall i | 0 <= i < |s| :: CleanAt(wide, s, i)
  }

  lemma CleanSuffix(wide: bool, s: string, n: nat)
    requires AllClean(wide, s) && n <= |s|
    ensures AllClean(wide, s[n..])
  {
    forall i | 0 <= i < |s[n..]| ensures CleanAt(wide, s[n..], i) {
      assert s[n..][i..] == s[n + i..];
      assert CleanAt(wide, s, n + i);
    }
  }

  lemma CleanMatch(wide: bool, s: string, t: Token)
    requires MatchAt(wide, s) == Some(t) && IsNamespaced(t.name) && t.length == |t.name| + 4 <= |s|
    ensures MapName(t.name) == t.name && s == "{{" + t.name + "}}" + s[t.length..]
  {
    MatchIffToken(wide, s, t.name, t.length);
    CleanTokenIsItsText(wide, s[..t.length], t.name);
    assert s == s[..t.length] + s[t.length..];
  }

  lemma {:induction false} CleanIsKept(wide: bool, s: string)
    requires AllClean(wide, s)
    ensures Rewrite(wide, s) == s
    decreases |s|
  {
    if s != "" {
      assert s[0..] == s && CleanAt(wide, s, 0);
      if MatchAt(wide, s).Some? {
        var t := MatchAt(wide, s).value;
        MatchLength(wide, s);
        CleanMatch(wide, s, t);
        CleanSuffix(wide, s, t.length);
        CleanIsKept(wide, s[t.length..]);
      } else {
        CleanSuffix(wide, s, 1);
        CleanIsKept(wide, s[1..]);
        assert s == [s[0]] + s[1..];
      }
    }
  }

  /** Nothing changes exactly when every token is already namespaced and free of white space. */
  lemma RewriteIsIdentityIff(wide: bool, s: string)
    ensures Rewrite(wide, s) == s <==> AllClean(wide, s)
  {
    if AllClean(wide, s) {
      CleanIsKept(wide, s);
    }
    if Rewrite(wide, s) == s {
      forall i | 0 <= i < |s| ensures CleanAt(wide, s, i) {
        NoFlatTokenLeft(wide, s, i);
      }
    }
  }

  lemma CleanTokenIsItsText(wide: bool, text: string, name: string)
    requires IsToken(wide, text, name) && |text| == |name| + 4
    ensures text == "{{" + name + "}}"
  {
    var lead, trail :| IsBody(wide, text[2..], lead, name, trail);
    assert lead == "" && trail == "";
    assert text == "{{" + text[2..];
  }
}
