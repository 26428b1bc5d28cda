/**
 Rewriting the tokens inside JSON (alembic/versions/pv1_namespaced_variables.py): the migration
 substitutes in the printed text; here that is shown to be a rewriting of the strings of the value.
 */
module JsonRewrite {
  import opened Common
  import opened TokenRewrite
  import opened JsonText

  /* ---------- Escaping and rewriting commute ---------- */

  lemma UnitsHaveNoBrace(n: nat)
    requires n < 0x110000
    ensures '{' !in Units(n)
  {
    if n < 0x10000 {
      UnitHasNoBrace(n);
    } else {
      UnitHasNoBrace(High(n));
      UnitHasNoBrace(Low(n));
    }
  }

  lemma UnitHasNoBrace(n: nat)
    requires n < 0x10000
    ensures '{' !in Unit(n)
  {
    forall c | c in Unit(n) ensures c != '{' {
      var i :| 0 <= i < |Unit(n)| && Unit(n)[i] == c;
      assert i == 0 || i == 1 || i == 2 || i == 3 || i == 4 || i == 5;
    }
  }

  lemma PlainIsItself(c: char)
    ensures IsNameChar(c) || c == ' ' || c == '{' || c == '}' ==> EscapeChar(c) == [c]
    ensures EscapeChar(c) == [c] || EscapeChar(c)[0] == '\\'
    ensures c != '{' ==> '{' !in EscapeChar(c)
  {
    if IsUnitEscaped(c) {
      UnitsHaveNoBrace(c as int);
    }
  }

  lemma EscapedHead(s: string)
    requires s != ""
    ensures Escaped(s) != ""
    ensures Escaped(s)[0] == s[0] || (Escaped(s)[0] == '\\' && !IsNameChar(s[0]) && s[0] != ' ' && s[0] != '{' && s[0] != '}')
    ensures IsNameChar(s[0]) || s[0] == ' ' || s[0] == '{' || s[0] == '}' ==> Escaped(s)[1..] == Escaped(s[1..])
  {
    PlainIsItself(s[0]);
  }

  lemma {:induction false} CloseEscaped(t: string)
    ensures Close(true, Escaped(t)) == Close(false, t)
    decreases |t|
  {
    if t != "" {
      EscapedHead(t);
      if t[0] == '}' && |t| > 1 {
        EscapedHead(t[1..]);
      } else if t[0] == ' ' {
        CloseEscaped(t[1..]);
      } else if t[0] != '}' {
        NotWidePlain(t);
      }
    }
  }

  /** In escaped text the only white space is the blank. */
  lemma NotWidePlain(t: string)
    requires t != ""
    ensures IsSpace(true, Escaped(t)[0]) <==> IsSpace(false, t[0])
    ensures IsNameChar(Escaped(t)[0]) <==> IsNameChar(t[0])
  {
    EscapedHead(t);
  }

  lemma NextEscaped(t: string)
    requires t != "" && IsNameChar(t[0])
    ensures Escaped(t)[0] == t[0] && Escaped(t)[1..] == Escaped(t[1..])
    ensures |Escaped(t)| > 1 && IsNameChar(Escaped(t)[1]) <==> |t| > 1 && IsNameChar(t[1])
  {
    EscapedHead(t);
    if |t| > 1 {
      NotWidePlain(t[1..]);
      assert Escaped(t)[1] == Escaped(t[1..])[0];
    }
  }

  lemma {:induction false} NameEscaped(t: string)
    requires t != "" && IsNameChar(t[0])
    ensures Escaped(t) != "" && IsNameChar(Escaped(t)[0])
    ensures NameAndClose(true, Escaped(t)) == NameAndClose(false, t)
    decreases |t|
  {
    EscapedHead(t);
    NextEscaped(t);
    if |t| > 1 && IsNameChar(t[1]) {
      NameEscaped(t[1..]);
    } else {
      CloseEscaped(t[1..]);
    }
  }

  lemma {:induction false} BodyEscaped(t: string)
    ensures Body(true, Escaped(t)) == Body(false, t)
    decreases |t|
  {
    if t != "" {
      EscapedHead(t);
      NotWidePlain(t);
      if t[0] == ' ' {
        BodyEscaped(t[1..]);
      } else if IsNameChar(t[0]) {
        NameEscaped(t);
      }
    }
  }

  lemma MatchEscaped(s: string)
    ensures MatchAt(true, Escaped(s)) == MatchAt(false, s)
  {
    if Opens(s) {
      SecondBraceEscaped(s);
      EscapedHead(s);
      BodyEscaped(s[2..]);
    } else {
      NotOpenEscaped(s);
    }
  }

  predicate Opens(s: string) {
    |s| >= 2 && s[0] == '{' && s[1] == '{'
  }

  lemma NotOpenEscaped(s: string)
    requires !Opens(s)
    ensures !Opens(Escaped(s))
  {
    if s != "" {
      EscapedHead(s);
      if s[0] == '{' && |s| > 1 {
        SecondBraceEscaped(s);
      }
    }
  }

  lemma SecondBraceEscaped(s: string)
    requires |s| > 1 && s[0] == '{'
    ensures |Escaped(s)| > 1 && (Escaped(s)[1] == '{' <==> s[1] == '{')
    ensures s[1] == '{' ==> Escaped(s)[2..] == Escaped(s[2..])
  {
    EscapedHead(s);
    EscapedHead(s[1..]);
    assert Escaped(s)[1] == Escaped(s)[1..][0];
    assert Escaped(s)[2..] == Escaped(s[1..])[1..];
    assert s[2..] == s[1..][1..];
  }

  predicate AllPlain(s: string) {
    forall c | c in s :: IsNameChar(c) || c == ' ' || c == '{' || c == '}'
  }

  lemma {:induction false} EscapedAppend(p: string, s: string)
    requires AllPlain(p)
    ensures Escaped(p + s) == p + Escaped(s)
    decreases |p|
  {
    if p == "" {
      assert p + s == s;
    } else {
      PlainIsItself(p[0]);
      assert p[0] in p && (p + s)[0] == p[0] && (p + s)[1..] == p[1..] + s;
      EscapedAppend(p[1..], s);
      Associate([p[0]], p[1..], Escaped(s));
      assert [p[0]] + p[1..] == p;
    }
  }

  lemma TokenIsPlain(s: string)
    requires MatchAt(false, s).Some?
    ensures var n := MatchAt(false, s).value.length; n <= |s| && AllPlain(s[..n])
  {
    MatchIsToken(false, s);
    var t := MatchAt(false, s).value;
    var text := s[..t.length];
    var lead, trail :| IsBody(false, text[2..], lead, t.name, trail);
    assert text == "{{" + text[2..];
  }

  /** Rewriting the escaped text of a string is escaping the rewritten string, the blank being its only white space. */
  lemma {:induction false} EscapeCommutes(s: string)
    ensures Rewrite(true, Escaped(s)) == Escaped(Rewrite(false, s))
    decreases |s|
  {
    if s != "" {
      MatchEscaped(s);
      EscapedHead(s);
      if MatchAt(false, s).Some? {
        MatchLength(false, s);
        var t := MatchAt(false, s).value;
        TokenIsPlain(s);
        var rest := s[t.length..];
        assert s == s[..t.length] + rest;
        EscapedAppend(s[..t.length], rest);
        assert Escaped(s)[t.length..] == Escaped(rest);
        EscapeCommutes(rest);
        MapNameIsNamespaced(t.name);
        EscapedAppend("{{" + MapName(t.name) + "}}", Rewrite(false, rest));
      } else if s[0] == '{' {
        EscapeCommutes(s[1..]);
        EscapedAppend("{", Rewrite(false, s[1..]));
      } else {
        PlainIsItself(s[0]);
        PassThrough(true, EscapeChar(s[0]), Escaped(s[1..]));
        EscapeCommutes(s[1..]);
        var r := [s[0]] + Rewrite(false, s[1..]);
        assert r[0] == s[0] && r[1..] == Rewrite(false, s[1..]);
      }
    }
  }

  /* ---------- No token crosses a quotation mark ---------- */

  lemma {:induction false} CloseStopsAtQuote(a: string, k: string)
    ensures Close(true, a + ("\"" + k)) == Close(true, a)
    decreases |a|
  {
    var s := a + ("\"" + k);
    if a == "" {
      assert s[0] == '"' && Close(true, s) == None;
    } else {
      assert s[0] == a[0] && s[1..] == a[1..] + ("\"" + k);
      assert s[1] == if |a| > 1 then a[1] else '"';
      if IsSpace(true, a[0]) {
        CloseStopsAtQuote(a[1..], k);
      }
    }
  }

  lemma {:induction false} NameStopsAtQuote(a: string, k: string)
    requires a != "" && IsNameChar(a[0])
    ensures NameAndClose(true, a + ("\"" + k)) == NameAndClose(true, a)
    decreases |a|
  {
    var s := a + ("\"" + k);
    assert s[0] == a[0] && s[1..] == a[1..] + ("\"" + k);
    assert s[1] == if |a| > 1 then a[1] else '"';
    if |a| > 1 && IsNameChar(a[1]) {
      NameStopsAtQuote(a[1..], k);
    } else {
      CloseStopsAtQuote(a[1..], k);
    }
  }

  lemma {:induction false} BodyStopsAtQuote(a: string, k: string)
    ensures Body(true, a + ("\"" + k)) == Body(true, a)
    decreases |a|
  {
    var s := a + ("\"" + k);
    if a == "" {
      assert s[0] == '"';
    } else {
      assert s[0] == a[0] && s[1..] == a[1..] + ("\"" + k);
      if IsSpace(true, a[0]) {
        BodyStopsAtQuote(a[1..], k);
      } else if IsNameChar(a[0]) {
        NameStopsAtQuote(a, k);
      }
    }
  }

  lemma MatchStopsAtQuote(a: string, k: string)
    requires a != ""
    ensures MatchAt(true, a + ("\"" + k)) == MatchAt(true, a)
  {
    var s := a + ("\"" + k);
    assert s[0] == a[0] && s[1] == if |a| > 1 then a[1] else '"';
    if |a| > 1 {
      assert s[2..] == a[2..] + ("\"" + k);
      BodyStopsAtQuote(a[2..], k);
    }
  }

  lemma {:induction false} RewriteUpToQuote(a: string, k: string)
    ensures Rewrite(true, a + ("\"" + k)) == Rewrite(true, a) + ("\"" + Rewrite(true, k))
    decreases |a|
  {
    var s := a + ("\"" + k);
    if a == "" {
      assert s == "\"" + k;
      PassThrough(true, "\"", k);
      assert "" + ("\"" + Rewrite(true, k)) == "\"" + Rewrite(true, k);
    } else {
      MatchStopsAtQuote(a, k);
      var n := 1;
      if MatchAt(true, a).Some? {
        MatchLength(true, a);
        n := MatchAt(true, a).value.length;
      }
      assert s[n..] == a[n..] + ("\"" + k) && s[0] == a[0];
      RewriteUpToQuote(a[n..], k);
      var head := if MatchAt(true, a).Some? then "{{" + MapName(MatchAt(true, a).value.name) + "}}" else [a[0]];
      Associate(head, Rewrite(true, a[n..]), "\"" + Rewrite(true, k));
    }
  }

  lemma RewriteQuoted(s: string, k: string)
    ensures Rewrite(true, Quoted(s) + k) == Quoted(Rewrite(false, s)) + Rewrite(true, k)
  {
    Bracketed("\"", Escaped(s), "\"", k);
    PassThrough(true, "\"", Escaped(s) + ("\"" + k));
    RewriteUpToQuote(Escaped(s), k);
    EscapeCommutes(s);
    Bracketed("\"", Escaped(Rewrite(false, s)), "\"", Rewrite(true, k));
  }

  /* ---------- The rewritten value ---------- */

  /** Every string of the value rewritten, object keys included. */
  function RewriteValue(v: Json): Json
    decreases v
  {
    match v
    case Atom(_) => v
    case Str(s) => Str(Rewrite(false, s))
    case Arr(items) => Arr(seq(|items|, i requires 0 <= i < |items| => RewriteValue(items[i])))
    case Obj(fields) => Obj(seq(|fields|, i requires 0 <= i < |fields| => RewriteField(fields[i])))
  }

  function RewriteField(f: Field): Field
    decreases f
  {
    Field(Rewrite(false, f.key), RewriteValue(f.value))
  }

  /** Rewriting the printed text is printing the rewritten value, whatever text follows. */
  lemma {:induction false} RewriteText(v: Json, k: string)
    requires AtomsOk(v)
    ensures Rewrite(true, Dumps(v) + k) == Dumps(RewriteValue(v)) + Rewrite(true, k)
    decreases v
  {
    match v {
      case Atom(text) =>
        PassThrough(true, text, k);
      case Str(s) =>
        RewriteQuoted(s, k);
      case Arr(items) =>
        var w := RewriteValue(v).items;
        Bracketed("[", DumpsItems(items), "]", k);
        PassThrough(true, "[", DumpsItems(items) + ("]" + k));
        RewriteItems(items, w, "]" + k);
        PassThrough(true, "]", k);
        Bracketed("[", DumpsItems(w), "]", Rewrite(true, k));
      case Obj(fields) =>
        var w := RewriteValue(v).fields;
        Bracketed("{", DumpsFields(fields), "}", k);
        OpenBracePasses(DumpsFields(fields) + ("}" + k), fields, k);
        RewriteFields(fields, w, "}" + k);
        PassThrough(true, "}", k);
        Bracketed("{", DumpsFields(w), "}", Rewrite(true, k));
    }
  }

  /** An object opens with one brace, never two. */
  lemma OpenBracePasses(rest: string, fields: seq<Field>, k: string)
    requires rest == DumpsFields(fields) + ("}" + k)
    ensures Rewrite(true, "{" + rest) == "{" + Rewrite(true, rest)
  {
    FieldsSplit(fields, k);
    assert rest == FieldsText(fields, k) && rest[0] != '{';
    assert ("{" + rest)[1] == rest[0] && ("{" + rest)[1..] == rest;
  }

  lemma {:induction false} RewriteItems(v: seq<Json>, w: seq<Json>, k: string)
    requires forall i | 0 <= i < |v| :: AtomsOk(v[i])
    requires |w| == |v| && forall i | 0 <= i < |v| :: w[i] == RewriteValue(v[i])
    ensures Rewrite(true, DumpsItems(v) + k) == DumpsItems(w) + Rewrite(true, k)
    decreases v
  {
    if v == [] {
      assert "" + k == k;
      assert "" + Rewrite(true, k) == Rewrite(true, k);
    } else if |v| == 1 {
      assert Dumps(v[0]) + "" == Dumps(v[0]) && Dumps(w[0]) + "" == Dumps(w[0]);
      RewriteText(v[0], k);
    } else {
      var rest := DumpsItems(v[1..]) + k;
      Associate(Dumps(v[0]), ", " + DumpsItems(v[1..]), k);
      Associate(", ", DumpsItems(v[1..]), k);
      RewriteText(v[0], ", " + rest);
      PassThrough(true, ", ", rest);
      RewriteItems(v[1..], w[1..], k);
      Associate(Dumps(w[0]), ", " + DumpsItems(w[1..]), Rewrite(true, k));
      Associate(", ", DumpsItems(w[1..]), Rewrite(true, k));
    }
  }

  lemma {:induction false} RewriteFieldText(f: Field, k: string)
    requires AtomsOk(f.value)
    ensures Rewrite(true, DumpsField(f) + k) == DumpsField(RewriteField(f)) + Rewrite(true, k)
    decreases f
  {
    var g := RewriteField(f);
    Associate(Quoted(f.key) + ": ", Dumps(f.value), k);
    Associate(Quoted(f.key), ": ", Dumps(f.value) + k);
    RewriteQuoted(f.key, ": " + (Dumps(f.value) + k));
    PassThrough(true, ": ", Dumps(f.value) + k);
    RewriteText(f.value, k);
    Associate(Quoted(g.key) + ": ", Dumps(g.value), Rewrite(true, k));
    Associate(Quoted(g.key), ": ", Dumps(g.value) + Rewrite(true, k));
  }

  lemma {:induction false} RewriteFields(v: seq<Field>, w: seq<Field>, k: string)
    requires forall i | 0 <= i < |v| :: AtomsOk(v[i].value)
    requires |w| == |v| && forall i | 0 <= i < |v| :: w[i] == RewriteField(v[i])
    ensures Rewrite(true, DumpsFields(v) + k) == DumpsFields(w) + Rewrite(true, k)
    decreases v
  {
    if v == [] {
      assert "" + k == k;
      assert "" + Rewrite(true, k) == Rewrite(true, k);
    } else if |v| == 1 {
      assert DumpsField(v[0]) + "" == DumpsField(v[0]) && DumpsField(w[0]) + "" == DumpsField(w[0]);
      RewriteFieldText(v[0], k);
    } else {
      var rest := DumpsFields(v[1..]) + k;
      Associate(DumpsField(v[0]), ", " + DumpsFields(v[1..]), k);
      Associate(", ", DumpsFields(v[1..]), k);
      RewriteFieldText(v[0], ", " + rest);
      PassThrough(true, ", ", rest);
      RewriteFields(v[1..], w[1..], k);
      Associate(DumpsField(w[0]), ", " + DumpsFields(w[1..]), Rewrite(true, k));
      Associate(", ", DumpsFields(w[1..]), Rewrite(true, k));
    }
  }

  lemma {:induction false} RewriteKeepsAtoms(v: Json)
    requires AtomsOk(v)
    ensures AtomsOk(RewriteValue(v))
    decreases v
  {
    match v {
      case Arr(items) =>
        forall i | 0 <= i < |items| ensures AtomsOk(RewriteValue(items[i])) { RewriteKeepsAtoms(items[i]); }
      case Obj(fields) =>
        forall i | 0 <= i < |fields| ensures AtomsOk(RewriteValue(fields[i].value)) { RewriteKeepsAtoms(fields[i].value); }
      case _ =>
    }
  }

  /** The rewritten text is the text of the rewritten value, and of no other value. */
  lemma RewrittenTextIs(v: Json, w: Json)
    requires AtomsOk(v) && AtomsOk(w)
    ensures Rewrite(true, Dumps(v)) == Dumps(w) <==> w == RewriteValue(v)
  {
    RewriteText(v, "");
    assert Dumps(v) + "" == Dumps(v) && Dumps(RewriteValue(v)) + "" == Dumps(RewriteValue(v));
    RewriteKeepsAtoms(v);
    if Rewrite(true, Dumps(v)) == Dumps(w) {
      TextDeterminesValue(w, RewriteValue(v));
    }
  }

  /* ---------- Loading the rewritten text ---------- */

  /** Setting a key of a dictionary: a new key goes last, an old one keeps its place. */
  function Put(fields: seq<Field>, f: Field): seq<Field> {
    if fields == [] then [f]
    else if fields[0].key == f.key then [f] + fields[1..]
    else [fields[0]] + Put(fields[1..], f)
  }

  /** The dictionary built from pairs in order. */
  function FromPairs(pairs: seq<Field>): seq<Field> {
    if pairs == [] then [] else Put(FromPairs(pairs[..|pairs| - 1]), pairs[|pairs| - 1])
  }

  predicate DistinctKeys(fields: seq<Field>) {
    forall i, j | 0 <= i < j < |fields| :: fields[i].key != fields[j].key
  }

  /** What `json.loads` makes of a printed value: dictionaries hold each key once. */
  function Loaded(v: Json): Json
    decreases v
  {
    match v
    case Arr(items) => Arr(seq(|items|, i requires 0 <= i < |items| => Loaded(items[i])))
    case Obj(fields) =>
      Obj(FromPairs(seq(|fields|, i requires 0 <= i < |fields| => Field(fields[i].key, Loaded(fields[i].value)))))
    case _ => v
  }

  /** A value Python can hold: no dictionary has a key twice. */
  predicate IsDict(v: Json)
    decreases v
  {
    match v
    case Arr(items) => forall i | 0 <= i < |items| :: IsDict(items[i])
    case Obj(fields) => DistinctKeys(fields) && forall i | 0 <= i < |fields| :: IsDict(fields[i].value)
    case _ => true
  }

  /** `_rewrite_json` */
  function RewriteJson(v: Json): Json {
    Loaded(RewriteValue(v))
  }

  lemma {:induction false} PutNew(fields: seq<Field>, f: Field)
    requires forall i | 0 <= i < |fields| :: fields[i].key != f.key
    ensures Put(fields, f) == fields + [f]
    decreases |fields|
  {
    if fields != [] {
      PutNew(fields[1..], f);
      assert [fields[0]] + (fields[1..] + [f]) == fields + [f];
    }
  }

  lemma {:induction false} PutMembers(fields: seq<Field>, f: Field)
    ensures forall g | g in Put(fields, f) :: g == f || g in fields
    decreases |fields|
  {
    if fields != [] && fields[0].key != f.key {
      PutMembers(fields[1..], f);
    }
  }

  lemma {:induction false} PutLength(fields: seq<Field>, f: Field)
    ensures |fields| <= |Put(fields, f)| <= |fields| + 1
    ensures |Put(fields, f)| == |fields| + 1 <==> forall i | 0 <= i < |fields| :: fields[i].key != f.key
    decreases |fields|
  {
    if fields != [] && fields[0].key != f.key {
      PutLength(fields[1..], f);
      assert forall i | 0 <= i < |fields[1..]| :: fields[1..][i] == fields[i + 1];
    }
  }

  lemma {:induction false} PutDistinct(fields: seq<Field>, f: Field)
    requires DistinctKeys(fields)
    ensures DistinctKeys(Put(fields, f))
    decreases |fields|
  {
    if fields != [] && fields[0].key != f.key {
      var rest := Put(fields[1..], f);
      PutDistinct(fields[1..], f);
      PutMembers(fields[1..], f);
      forall i | 0 <= i < |rest| ensures rest[i].key != fields[0].key {
        assert rest[i] in rest;
      }
    }
  }

  lemma {:induction false} FromPairsKeeps(pairs: seq<Field>)
    ensures DistinctKeys(FromPairs(pairs)) && |FromPairs(pairs)| <= |pairs|
    decreases |pairs|
  {
    if pairs != [] {
      var front, f := pairs[..|pairs| - 1], pairs[|pairs| - 1];
      FromPairsKeeps(front);
      PutOnce(FromPairs(front), f);
    }
  }

  lemma PutOnce(fields: seq<Field>, f: Field)
    requires DistinctKeys(fields)
    ensures DistinctKeys(Put(fields, f)) && |Put(fields, f)| <= |fields| + 1
  {
    PutDistinct(fields, f);
    PutLength(fields, f);
  }

  lemma {:induction false} FromPairsWithin(pairs: seq<Field>)
    ensures forall g | g in FromPairs(pairs) :: g in pairs
    decreases |pairs|
  {
    if pairs != [] {
      var n := |pairs| - 1;
      FromPairsWithin(pairs[..n]);
      PutMembers(FromPairs(pairs[..n]), pairs[n]);
      assert pairs == pairs[..n] + [pairs[n]];
    }
  }

  lemma {:induction false} FromDistinctPairs(pairs: seq<Field>)
    requires DistinctKeys(pairs)
    ensures FromPairs(pairs) == pairs
    decreases |pairs|
  {
    if pairs != [] {
      var n := |pairs| - 1;
      FromDistinctPairs(pairs[..n]);
      PutNew(pairs[..n], pairs[n]);
    }
  }

  lemma DistinctSnoc(fields: seq<Field>, f: Field)
    ensures DistinctKeys(fields + [f]) <==> DistinctKeys(fields) && forall i | 0 <= i < |fields| :: fields[i].key != f.key
  {
    var all := fields + [f];
    assert all[|fields|] == f;
    assert forall i | 0 <= i < |fields| :: all[i] == fields[i];
  }

  /** No entry is lost exactly when no key occurs twice. */
  lemma {:induction false} FromPairsLength(pairs: seq<Field>)
    ensures |FromPairs(pairs)| == |pairs| <==> DistinctKeys(pairs)
    decreases |pairs|
  {
    if DistinctKeys(pairs) {
      FromDistinctPairs(pairs);
    } else {
      var n := |pairs| - 1;
      var front, f := pairs[..n], pairs[n];
      FromPairsKeeps(front);
      PutLength(FromPairs(front), f);
      if DistinctKeys(front) {
        FromDistinctPairs(front);
        DistinctSnoc(front, f);
        assert pairs == front + [f];
      } else {
        FromPairsLength(front);
      }
    }
  }

  /** Same atoms and lengths throughout: what "preserving shape" means. */
  ghost predicate SameShape(v: Json, w: Json)
    decreases v
  {
    match v
    case Atom(_) => w == v
    case Str(_) => w.Str?
    case Arr(items) => w.Arr? && |w.items| == |items| && forall i | 0 <= i < |items| :: SameShape(items[i], w.items[i])
    case Obj(fields) =>
      w.Obj? && |w.fields| == |fields| && forall i | 0 <= i < |fields| :: SameShape(fields[i].value, w.fields[i].value)
  }

  /** No two keys of one object become the same key. */
  predicate KeysStayDistinct(v: Json)
    decreases v
  {
    match v
    case Arr(items) => forall i | 0 <= i < |items| :: KeysStayDistinct(items[i])
    case Obj(fields) =>
      && (forall i, j | 0 <= i < j < |fields| :: Rewrite(false, fields[i].key) != Rewrite(false, fields[j].key))
      && forall i | 0 <= i < |fields| :: KeysStayDistinct(fields[i].value)
    case _ => true
  }

  /** The shape is preserved exactly when no two keys collide; then nothing but the strings changes. */
  lemma {:induction false} ShapePreservedIff(v: Json)
    ensures SameShape(v, RewriteJson(v)) <==> KeysStayDistinct(v)
    ensures KeysStayDistinct(v) ==> RewriteJson(v) == RewriteValue(v)
    decreases v
  {
    match v {
      case Arr(items) =>
        forall i | 0 <= i < |items|
          ensures SameShape(items[i], RewriteJson(items[i])) <==> KeysStayDistinct(items[i])
          ensures KeysStayDistinct(items[i]) ==> RewriteJson(items[i]) == RewriteValue(items[i])
        {
          ShapePreservedIff(items[i]);
        }
        var w := RewriteJson(v);
        assert |w.items| == |items| && forall i | 0 <= i < |items| :: w.items[i] == RewriteJson(items[i]);
        assert KeysStayDistinct(v) ==> w.items == RewriteValue(v).items;
      case Obj(fields) =>
        forall i | 0 <= i < |fields|
          ensures SameShape(fields[i].value, RewriteJson(fields[i].value)) <==> KeysStayDistinct(fields[i].value)
          ensures KeysStayDistinct(fields[i].value) ==> RewriteJson(fields[i].value) == RewriteValue(fields[i].value)
        {
          ShapePreservedIff(fields[i].value);
        }
        var pairs := LoadedPairs(v);
        LoadedObject(v);
        FromPairsLength(pairs);
        if DistinctKeys(pairs) {
          FromDistinctPairs(pairs);
        }
        if KeysStayDistinct(v) {
          assert pairs == RewriteValue(v).fields;
        } else if SameShape(v, RewriteJson(v)) {
          forall i, j | 0 <= i < j < |fields| ensures Rewrite(false, fields[i].key) != Rewrite(false, fields[j].key) {
            assert pairs[i].key != pairs[j].key;
          }
        }
      case _ =>
    }
  }

  /** The pairs the dictionary of a rewritten object is loaded from. */
  function LoadedPairs(v: Json): (pairs: seq<Field>)
    requires v.Obj?
    ensures |pairs| == |v.fields|
    ensures forall i | 0 <= i < |pairs| ::
              pairs[i] == Field(Rewrite(false, v.fields[i].key), RewriteJson(v.fields[i].value))
  {
    seq(|v.fields|, i requires 0 <= i < |v.fields| =>
      Field(Rewrite(false, v.fields[i].key), RewriteJson(v.fields[i].value)))
  }

  lemma LoadedObject(v: Json)
    requires v.Obj?
    ensures RewriteJson(v) == Obj(FromPairs(LoadedPairs(v)))
  {
    var w := RewriteValue(v).fields;
    assert forall i | 0 <= i < |w| :: w[i] == RewriteField(v.fields[i]);
    assert seq(|w|, i requires 0 <= i < |w| => Field(w[i].key, Loaded(w[i].value))) == LoadedPairs(v);
  }

  lemma SpelledToken(lead: string, name: string, trail: string)
    requires AllSpace(false, lead) && IsName(name) && AllSpace(false, trail)
    ensures Rewrite(false, "{{" + BodyText(lead, name, trail)) == "{{" + MapName(name) + "}}"
  {
    var s := "{{" + BodyText(lead, name, trail);
    assert s[2..] == BodyText(lead, name, trail) + "";
    BodyExact(false, lead, name, trail, "");
    assert s[|s|..] == "" && Rewrite(false, "") == "";
    assert "{{" + MapName(name) + "}}" + "" == "{{" + MapName(name) + "}}";
  }

  /** Two spellings of one token as keys of one object: an entry is lost, whatever the name. */
  lemma CollidingKeysLoseAnEntry(name: string, x: string, y: string)
    requires IsName(name)
    ensures var v := Obj([Field("{{" + BodyText("", name, ""), Atom(x)), Field("{{" + BodyText(" ", name, " "), Atom(y))]);
            IsDict(v) && RewriteJson(v) == Obj([Field("{{" + MapName(name) + "}}", Atom(y))])
  {
    var first, second := Field("{{" + BodyText("", name, ""), Atom(x)), Field("{{" + BodyText(" ", name, " "), Atom(y));
    var v := Obj([first, second]);
    assert |first.key| != |second.key|;
    SpelledToken("", name, "");
    SpelledToken(" ", name, " ");
    var key := "{{" + MapName(name) + "}}";
    var pairs := LoadedPairs(v);
    LoadedObject(v);
    assert RewriteJson(Atom(x)) == Atom(x) && RewriteJson(Atom(y)) == Atom(y);
    assert pairs == [Field(key, Atom(x)), Field(key, Atom(y))];
    assert pairs[..1] == [Field(key, Atom(x))];
    FromDistinctPairs(pairs[..1]);
    assert [Field(key, Atom(y))] + pairs[..1][1..] == [Field(key, Atom(y))];
  }

  /** Strings, at every depth, that the rewriting leaves alone. */
  predicate IsRewritten(v: Json)
    decreases v
  {
    match v
    case Atom(_) => true
    case Str(s) => Rewrite(false, s) == s
    case Arr(items) => forall i | 0 <= i < |items| :: IsRewritten(items[i])
    case Obj(fields) => forall i | 0 <= i < |fields| :: Rewrite(false, fields[i].key) == fields[i].key && IsRewritten(fields[i].value)
  }

  lemma {:induction false} RewrittenIsFixed(v: Json)
    requires IsRewritten(v)
    ensures RewriteValue(v) == v
    decreases v
  {
    match v {
      case Arr(items) =>
        forall i | 0 <= i < |items| ensures RewriteValue(items[i]) == items[i] { RewrittenIsFixed(items[i]); }
        assert RewriteValue(v).items == items;
      case Obj(fields) =>
        forall i | 0 <= i < |fields| ensures RewriteField(fields[i]) == fields[i] { RewrittenIsFixed(fields[i].value); }
        assert RewriteValue(v).fields == fields;
      case _ =>
    }
  }

  lemma {:induction false} DictLoadsAsItself(v: Json)
    requires IsDict(v)
    ensures Loaded(v) == v
    decreases v
  {
    match v {
      case Arr(items) =>
        forall i | 0 <= i < |items| ensures Loaded(items[i]) == items[i] { DictLoadsAsItself(items[i]); }
        assert Loaded(v).items == items;
      case Obj(fields) =>
        forall i | 0 <= i < |fields| ensures Field(fields[i].key, Loaded(fields[i].value)) == fields[i] {
          DictLoadsAsItself(fields[i].value);
        }
        FromDistinctPairs(fields);
        assert seq(|fields|, i requires 0 <= i < |fields| => Field(fields[i].key, Loaded(fields[i].value))) == fields;
      case _ =>
    }
  }

  lemma {:induction false} RewriteJsonIsRewritten(v: Json)
    ensures IsRewritten(RewriteJson(v)) && IsDict(RewriteJson(v))
    decreases v
  {
    match v {
      case Atom(_) =>
      case Str(s) => RewriteIdempotent(false, s);
      case Arr(items) =>
        forall i | 0 <= i < |items| ensures IsRewritten(RewriteJson(items[i])) && IsDict(RewriteJson(items[i])) {
          RewriteJsonIsRewritten(items[i]);
        }
        assert forall i | 0 <= i < |items| :: RewriteJson(v).items[i] == RewriteJson(items[i]);
      case Obj(fields) =>
        LoadedObject(v);
        FromPairsKeeps(LoadedPairs(v));
        FromPairsWithin(LoadedPairs(v));
        var once := FromPairs(LoadedPairs(v));
        forall i | 0 <= i < |once|
          ensures Rewrite(false, once[i].key) == once[i].key && IsRewritten(once[i].value) && IsDict(once[i].value)
        {
          assert once[i] in once && once[i] in LoadedPairs(v);
          var j :| 0 <= j < |fields| && LoadedPairs(v)[j] == once[i];
          RewriteIdempotent(false, fields[j].key);
          RewriteJsonIsRewritten(fields[j].value);
        }
    }
  }

  /** A second run of `_rewrite_json` changes nothing, whether keys collided in the first or not. */
  lemma RewriteJsonIdempotent(v: Json)
    ensures RewriteJson(RewriteJson(v)) == RewriteJson(v)
  {
    RewriteJsonIsRewritten(v);
    RewrittenIsFixed(RewriteJson(v));
    DictLoadsAsItself(RewriteJson(v));
  }

  /* ---------- The table of playbooks ---------- */

  datatype Playbook = Playbook(definition: Option<Json>, lastDryRun: Option<int>)

  /** What the migration makes of one row. */
  function Migrated(p: Playbook): Playbook {
    if p.definition.None? || RewriteJson(p.definition.value) == p.definition.value then p
    else Playbook(Some(RewriteJson(p.definition.value)), None)
  }

  lemma MigratedTwice(p: Playbook)
    ensures Migrated(Migrated(p)) == Migrated(p)
  {
    if p.definition.Some? {
      RewriteJsonIdempotent(p.definition.value);
    }
  }

  class PlaybookTable {
    var rows: map<Id, Playbook>

    constructor (rows: map<Id, Playbook>)
      ensures this.rows == rows
    {
      this.rows := rows;
    }

    /** The first loop of `upgrade`. Rows with nothing to rewrite are not written, so they keep their dry-run stamp. */
    method RewritePlaybooks() returns (written: set<Id>)
      modifies this
      ensures rows.Keys == old(rows).Keys && forall i | i in rows :: rows[i] == Migrated(old(rows)[i])
      ensures written == set i | i in old(rows) && Migrated(old(rows)[i]) != old(rows)[i]
      ensures (forall i | i in old(rows) :: Migrated(old(rows)[i]) == old(rows)[i]) ==> rows == old(rows) && written == {}
    {
      ghost var before := rows;
      var pending := rows.Keys;
      written := {};
      while pending != {}
        invariant pending <= rows.Keys == before.Keys
        invariant forall i | i in rows :: rows[i] == if i in pending then before[i] else Migrated(before[i])
        invariant written == set i | i in before && i !in pending && Migrated(before[i]) != before[i]
        decreases |pending|
      {
        NonEmpty(pending);
        var id :| id in pending;
        pending := pending - {id};
        var definition := rows[id].definition;
        if definition.Some? {
          var rewritten := RewriteJson(definition.value);
          if rewritten != definition.value {
            rows := rows[id := Playbook(Some(rewritten), None)];
            written := written + {id};
          }
        }
      }
      assert forall i | i in rows :: rows[i] == Migrated(before[i]);
      if forall i | i in before :: Migrated(before[i]) == before[i] {
        assert rows == before;
        assert written == {};
      }
    }
  }

  /* ---------- Keys of workflow variables ---------- */

  const INPUT := "input."

  function InputKey(key: string): string {
    if INPUT <= key then key else INPUT + key
  }

  function InputFields(fields: seq<Field>): (r: seq<Field>)
    ensures |r| == |fields| && forall i | 0 <= i < |fields| :: r[i] == Field(InputKey(fields[i].key), fields[i].value)
  {
    seq(|fields|, i requires 0 <= i < |fields| => Field(InputKey(fields[i].key), fields[i].value))
  }

  /** `_namespace_action_variables`; the values of a `variables` mapping are not entered. */
  function NamespaceVariables(v: Json): Json
    decreases v
  {
    match v
    case Arr(items) => Arr(seq(|items|, i requires 0 <= i < |items| => NamespaceVariables(items[i])))
    case Obj(fields) => Obj(seq(|fields|, i requires 0 <= i < |fields| => NamespaceField(fields[i])))
    case _ => v
  }

  function NamespaceField(f: Field): Field
    decreases f
  {
    if f.key == "variables" && f.value.Obj? then Field(f.key, Obj(FromPairs(InputFields(f.value.fields))))
    else Field(f.key, NamespaceVariables(f.value))
  }

  lemma {:induction false} NamespaceIdempotent(v: Json)
    ensures NamespaceVariables(NamespaceVariables(v)) == NamespaceVariables(v)
    decreases v
  {
    var w := NamespaceVariables(v);
    match v {
      case Arr(items) =>
        forall i | 0 <= i < |items| ensures NamespaceVariables(w.items[i]) == w.items[i] { NamespaceIdempotent(items[i]); }
        assert NamespaceVariables(w).items == w.items;
      case Obj(fields) =>
        forall i | 0 <= i < |fields| ensures NamespaceField(w.fields[i]) == w.fields[i] {
          NamespaceFieldIdempotent(fields[i]);
        }
        assert NamespaceVariables(w).fields == w.fields;
      case _ =>
    }
  }

  lemma {:induction false} NamespaceFieldIdempotent(f: Field)
    ensures NamespaceField(NamespaceField(f)) == NamespaceField(f)
    decreases f
  {
    if f.key == "variables" && f.value.Obj? {
      var pairs := InputFields(f.value.fields);
      FromPairsKeeps(pairs);
      FromPairsWithin(pairs);
      var once := FromPairs(pairs);
      forall i | 0 <= i < |once| ensures InputFields(once)[i] == once[i] {
        assert once[i] in once && once[i] in pairs;
        var j :| 0 <= j < |pairs| && pairs[j] == once[i];
        InputKeyIsPrefixed(f.value.fields[j].key);
      }
      assert InputFields(once) == once;
      FromDistinctPairs(once);
    } else {
      NamespaceIdempotent(f.value);
      NamespaceKeepsKind(f.value);
    }
  }

  lemma NamespaceKeepsKind(v: Json)
    ensures NamespaceVariables(v).Obj? == v.Obj?
  {
  }

  lemma InputKeyIsPrefixed(key: string)
    ensures INPUT <= InputKey(key) && InputKey(InputKey(key)) == InputKey(key)
  {
  }

  /** `bare` and `other` are the same variable, the second spelled with its prefix. */
  predicate SameVariable(bare: string, other: string) {
    !(INPUT <= bare) && other == INPUT + bare
  }

  lemma InputKeyCollidesIff(a: string, b: string)
    requires a != b
    ensures InputKey(a) == InputKey(b) <==> SameVariable(a, b) || SameVariable(b, a)
  {
    if !(INPUT <= a) && !(INPUT <= b) && INPUT + a == INPUT + b {
      SplitEqual(INPUT, a, INPUT, b);
    }
  }

  /** A `variables` mapping keeps all its entries exactly when no key sits there both bare and prefixed. */
  lemma VariablesKeptIff(fields: seq<Field>)
    requires DistinctKeys(fields)
    ensures |FromPairs(InputFields(fields))| == |fields| <==>
            forall i, j | 0 <= i < |fields| && 0 <= j < |fields| :: !SameVariable(fields[i].key, fields[j].key)
  {
    var pairs := InputFields(fields);
    FromPairsLength(pairs);
    forall i, j | 0 <= i < |fields| && 0 <= j < |fields| && i != j
      ensures pairs[i].key == pairs[j].key <==> SameVariable(fields[i].key, fields[j].key) || SameVariable(fields[j].key, fields[i].key)
    {
      assert fields[i].key != fields[j].key by {
        if i < j {
        } else {
          assert fields[j].key != fields[i].key;
        }
      }
      InputKeyCollidesIff(fields[i].key, fields[j].key);
    }
    forall i | 0 <= i < |fields| ensures !SameVariable(fields[i].key, fields[i].key) {
      assert |INPUT + fields[i].key| != |fields[i].key|;
    }
  }

  class ConfigTable {
    var rows: map<Id, Json>

    constructor (rows: map<Id, Json>)
      ensures this.rows == rows
    {
      this.rows := rows;
    }

    /** The third loop of `upgrade`, over one table; `written` are the rows with a key to prefix. */
    method NamespaceConfigs() returns (written: set<Id>)
      modifies this
      ensures rows.Keys == old(rows).Keys && forall i | i in rows :: rows[i] == NamespaceVariables(old(rows)[i])
      ensures written == set i | i in old(rows) && NamespaceVariables(old(rows)[i]) != old(rows)[i]
    {
      ghost var before := rows;
      var pending := rows.Keys;
      written := {};
      while pending != {}
        invariant pending <= rows.Keys == before.Keys
        invariant forall i | i in rows :: rows[i] == (if i in pending then before[i] else NamespaceVariables(before[i]))
        invariant written == set i | i in before && i !in pending && NamespaceVariables(before[i]) != before[i]
        decreases |pending|
      {
        NonEmpty(pending);
        var id :| id in pending;
        pending := pending - {id};
        var updated := NamespaceVariables(rows[id]);
        if updated != rows[id] {
          rows := rows[id := updated];
          written := written + {id};
        }
      }
    }
  }

  /* ---------- Which mappings are prefixed ---------- */

  /** The value at the end of a path of positions. */
  function At(v: Json, path: seq<nat>): Option<Json>
    decreases |path|
  {
    if path == [] then Some(v)
    else
      match v
      case Arr(items) => if path[0] < |items| then At(items[path[0]], path[1..]) else None
      case Obj(fields) => if path[0] < |fields| then At(fields[path[0]].value, path[1..]) else None
      case _ => None
  }

  predicate IsVariables(f: Field) {
    f.key == "variables" && f.value.Obj?
  }

  /** The path leads to a `variables` mapping. */
  predicate EndsAtVariables(v: Json, path: seq<nat>)
    decreases |path|
  {
    && path != []
    && match v
       case Arr(items) => path[0] < |items| && EndsAtVariables(items[path[0]], path[1..])
       case Obj(fields) =>
         path[0] < |fields| &&
         if |path| == 1 then IsVariables(fields[path[0]]) else EndsAtVariables(fields[path[0]].value, path[1..])
       case _ => false
  }

  /** The path does not lead below a `variables` mapping: no proper part of it ends at one. */
  ghost predicate IsOpen(v: Json, path: seq<nat>) {
    forall n: nat | n < |path| :: !EndsAtVariables(v, path[..n])
  }

  /** The same values under the same keys, in the same order, but for what each value became. */
  ghost predicate SameKeys(v: Json, w: Json) {
    match v
    case Arr(items) => w.Arr? && |w.items| == |items|
    case Obj(fields) => w.Obj? && |w.fields| == |fields| && forall i | 0 <= i < |fields| :: w.fields[i].key == fields[i].key
    case _ => w == v
  }

  /** A path behind its first step. */
  lemma OpenTail(v: Json, path: seq<nat>, part: Json)
    requires path != [] && IsOpen(v, path) && At(v, path[..1]) == Some(part)
    ensures IsOpen(part, path[1..])
    ensures |path| > 1 ==> !EndsAtVariables(v, path[..1]) && (EndsAtVariables(v, path) <==> EndsAtVariables(part, path[1..]))
  {
    assert path[..1][0] == path[0] && path[..1][1..] == [];
    forall n: nat | n < |path[1..]| ensures !EndsAtVariables(part, path[1..][..n]) {
      assert path[..n + 1][1..] == path[1..][..n] && path[..n + 1][0] == path[0];
      assert !EndsAtVariables(v, path[..n + 1]);
    }
  }

  /**
   Everything outside the `variables` mappings stays: same keys, same order, same atoms. A `variables` mapping that is not
   inside another has its keys prefixed and its values as they were.
   */
  lemma {:induction false} NamespacedAt(v: Json, path: seq<nat>)
    requires At(v, path).Some? && IsOpen(v, path)
    ensures At(NamespaceVariables(v), path).Some?
    ensures var part, after := At(v, path).value, At(NamespaceVariables(v), path).value;
            if EndsAtVariables(v, path) then part.Obj? && after == Obj(FromPairs(InputFields(part.fields)))
            else after == NamespaceVariables(part) && SameKeys(part, after)
    decreases |path|
  {
    if path != [] {
      assert path[..1][0] == path[0] && path[..1][1..] == [];
      match v {
        case Arr(items) =>
          OpenTail(v, path, items[path[0]]);
          NamespacedAt(items[path[0]], path[1..]);
        case Obj(fields) =>
          OpenTail(v, path, fields[path[0]].value);
          if !IsVariables(fields[path[0]]) {
            NamespacedAt(fields[path[0]].value, path[1..]);
          }
        case _ =>
      }
    }
  }

  /** Of the pairs with one key the last is kept: what a dictionary built from pairs holds. */
  lemma {:induction false} FromPairsHolds(pairs: seq<Field>, g: Field)
    ensures g in FromPairs(pairs) <==> exists i :: 0 <= i < |pairs| && IsLastOfKey(pairs, i) && pairs[i] == g
    decreases |pairs|
  {
    if pairs != [] {
      var n := |pairs| - 1;
      var front, f := pairs[..n], pairs[n];
      FromPairsHolds(front, g);
      FromPairsKeeps(front);
      PutHolds(FromPairs(front), f, g);
      assert IsLastOfKey(pairs, n);
      forall i | 0 <= i < n ensures IsLastOfKey(pairs, i) <==> IsLastOfKey(front, i) && front[i].key != f.key {
        LastOfFront(pairs, i);
      }
    }
  }

  ghost predicate IsLastOfKey(pairs: seq<Field>, i: nat)
    requires i < |pairs|
  {
    forall j | i < j < |pairs| :: pairs[j].key != pairs[i].key
  }

  lemma LastOfFront(pairs: seq<Field>, i: nat)
    requires i < |pairs| - 1
    ensures var front := pairs[..|pairs| - 1];
            IsLastOfKey(pairs, i) <==> IsLastOfKey(front, i) && front[i].key != pairs[|pairs| - 1].key
  {
    var front := pairs[..|pairs| - 1];
    assert forall j | 0 <= j < |front| :: front[j] == pairs[j];
  }

  lemma {:induction false} PutHolds(fields: seq<Field>, f: Field, g: Field)
    requires DistinctKeys(fields)
    ensures g in Put(fields, f) <==> g == f || (g in fields && g.key != f.key)
    decreases |fields|
  {
    if fields != [] {
      assert fields == [fields[0]] + fields[1..];
      if fields[0].key == f.key {
        OthersDiffer(fields, g);
      } else {
        PutHolds(fields[1..], f, g);
      }
    }
  }

  lemma OthersDiffer(fields: seq<Field>, g: Field)
    requires DistinctKeys(fields) && fields != []
    ensures g in fields[1..] ==> g.key != fields[0].key
  {
    if g in fields[1..] {
      var i :| 0 <= i < |fields[1..]| && fields[1..][i] == g;
      assert fields[i + 1] == g;
    }
  }
}
