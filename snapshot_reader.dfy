/** A reader for the TypeScript literal syntax the serializer emits: single-quoted
    strings with the five escapes, integers, `null`, `undefined`, booleans, arrays and
    objects with bare or quoted keys, with blanks between tokens. It is the partner
    that states what the printed text means: reading a printed value gives it back
    with its undefined entries dropped, and reading a printed snapshot module gives
    the snapshot back. */
module SnapshotReader {
  import opened Types
  import opened Text
  import opened SaveData

  predicate IsSpace(c: char) {
    c == ' ' || c == '\n' || c == '\r' || c == '\t'
  }

  /** Only blanks: spaces, line breaks and tabs. */
  predicate Blank(s: string) {
    s == [] || (IsSpace(s[0]) && Blank(s[1..]))
  }

  lemma {:induction false} BlankConcat(a: string, b: string)
    requires Blank(a) && Blank(b)
    ensures Blank(a + b)
  {
    if a == [] {
      assert a + b == b;
    } else {
      assert (a + b)[1..] == a[1..] + b;
      BlankConcat(a[1..], b);
    }
  }

  predicate IsDigit(c: char) {
    '0' <= c <= '9'
  }

  predicate IsPrefix(p: string, t: string) {
    |p| <= |t| && t[..|p|] == p
  }

  function SkipSpace(t: string): (r: string)
    ensures |r| <= |t|
  {
    if t != [] && IsSpace(t[0]) then SkipSpace(t[1..]) else t
  }

  lemma {:induction false} SkipOver(w: string, x: string)
    requires Blank(w)
    requires x == [] || !IsSpace(x[0])
    ensures SkipSpace(w + x) == x
  {
    if w == [] {
      assert w + x == x;
    } else {
      assert (w + x)[1..] == w[1..] + x;
      SkipOver(w[1..], x);
    }
  }

  // ---------------------------------------------------------------------------
  // Tokens

  /** The character a two-character escape stands for. */
  function Unescape(c: char): Option<char> {
    if c == '\\' then Some('\\')
    else if c == '\'' then Some('\'')
    else if c == 'n' then Some('\n')
    else if c == 'r' then Some('\r')
    else if c == 't' then Some('\t')
    else None
  }

  /** The body of a single-quoted string literal up to its closing quote, escapes
      decoded left to right; a raw line break ends the literal with an error. */
  function ReadQuoted(t: string): (r: Option<(string, string)>)
    ensures r.Some? ==> |r.value.1| < |t|
  {
    if t == [] then None
    else if t[0] == '\'' then Some(("", t[1..]))
    else if t[0] == '\n' || t[0] == '\r' then None
    else if t[0] == '\\' then
      if |t| < 2 then None
      else
        var c :- Unescape(t[1]);
        var p :- ReadQuoted(t[2..]);
        Some(([c] + p.0, p.1))
    else
      var p :- ReadQuoted(t[1..]);
      Some(([t[0]] + p.0, p.1))
  }

  /** A quoted key: everything up to the next quote, taken as it is. */
  function ReadRawQuoted(t: string): (r: Option<(string, string)>)
    ensures r.Some? ==> |r.value.1| < |t|
  {
    if t == [] then None
    else if t[0] == '\'' then Some(("", t[1..]))
    else
      var p :- ReadRawQuoted(t[1..]);
      Some(([t[0]] + p.0, p.1))
  }

  function IdentSpan(t: string): (n: nat)
    ensures n <= |t|
    ensures forall i | 0 <= i < n :: IsIdentPart(t[i])
  {
    if t != [] && IsIdentPart(t[0]) then 1 + IdentSpan(t[1..]) else 0
  }

  /** A bare identifier key or a quoted key. */
  function ReadKey(t: string): (r: Option<(string, string)>)
    ensures r.Some? ==> |r.value.1| < |t|
  {
    if t != [] && t[0] == '\'' then ReadRawQuoted(t[1..])
    else
      var n := IdentSpan(t);
      if n > 0 && IsIdentStart(t[0]) then Some((t[..n], t[n..])) else None
  }

  function DigitSpan(t: string): (n: nat)
    ensures n <= |t|
    ensures forall i | 0 <= i < n :: IsDigit(t[i])
  {
    if t != [] && IsDigit(t[0]) then 1 + DigitSpan(t[1..]) else 0
  }

  /** The number a run of decimal digits denotes. */
  function DigitsValue(ds: string): nat
    requires forall i | 0 <= i < |ds| :: IsDigit(ds[i])
  {
    if ds == [] then 0
    else
      assert IsDigit(ds[|ds| - 1]);
      DigitsValue(ds[..|ds| - 1]) * 10 + (ds[|ds| - 1] as int - '0' as int)
  }

  function ReadNat(t: string): (r: Option<(nat, string)>)
    ensures r.Some? ==> |r.value.1| < |t|
  {
    var n := DigitSpan(t);
    if n == 0 then None else Some((DigitsValue(t[..n]), t[n..]))
  }

  // ---------------------------------------------------------------------------
  // Values

  function ParseValue(t: string): (r: Option<(Value, string)>)
    ensures r.Some? ==> |r.value.1| < |t|
    decreases |t|, 0
  {
    if t == [] then None
    else if t[0] == 'n' then (if IsPrefix("null", t) then Some((Null, t[4..])) else None)
    else if t[0] == 'u' then (if IsPrefix("undefined", t) then Some((Undef, t[9..])) else None)
    else if t[0] == 't' then (if IsPrefix("true", t) then Some((Bool(true), t[4..])) else None)
    else if t[0] == 'f' then (if IsPrefix("false", t) then Some((Bool(false), t[5..])) else None)
    else if t[0] == '\'' then
      var p :- ReadQuoted(t[1..]);
      Some((Str(p.0), p.1))
    else if t[0] == '-' then
      var p :- ReadNat(t[1..]);
      Some((Num(-(p.0 as int)), p.1))
    else if IsDigit(t[0]) then
      var p :- ReadNat(t);
      Some((Num(p.0), p.1))
    else if t[0] == '[' then
      var u := SkipSpace(t[1..]);
      if u != [] && u[0] == ']' then Some((Arr([]), u[1..]))
      else
        var p :- ParseItems(t[1..]);
        Some((Arr(p.0), p.1))
    else if t[0] == '{' then
      var u := SkipSpace(t[1..]);
      if u != [] && u[0] == '}' then Some((Obj([]), u[1..]))
      else
        var p :- ParseProps(t[1..]);
        Some((Obj(p.0), p.1))
    else None
  }

  /** Comma-separated values up to the closing bracket. */
  function ParseItems(t: string): (r: Option<(seq<Value>, string)>)
    ensures r.Some? ==> |r.value.1| < |t|
    decreases |t|, 1
  {
    var p :- ParseValue(SkipSpace(t));
    var u := SkipSpace(p.1);
    if u != [] && u[0] == ',' then
      var q :- ParseItems(u[1..]);
      Some(([p.0] + q.0, q.1))
    else if u != [] && u[0] == ']' then Some(([p.0], u[1..]))
    else None
  }

  /** Comma-separated `key: value` pairs up to the closing brace. */
  function ParseProps(t: string): (r: Option<(seq<Member>, string)>)
    ensures r.Some? ==> |r.value.1| < |t|
    decreases |t|, 1
  {
    var k :- ReadKey(SkipSpace(t));
    var u := SkipSpace(k.1);
    if u == [] || u[0] != ':' then None
    else
      var p :- ParseValue(SkipSpace(u[1..]));
      var w := SkipSpace(p.1);
      if w != [] && w[0] == ',' then
        var q :- ParseProps(w[1..]);
        Some(([Member(k.0, p.0)] + q.0, q.1))
      else if w != [] && w[0] == '}' then Some(([Member(k.0, p.0)], w[1..]))
      else None
  }

  // ---------------------------------------------------------------------------
  // Tokens read back

  lemma {:induction false} ReadEscaped(s: string, rest: string)
    ensures ReadQuoted(EscapeEach(s) + "'" + rest) == Some((s, rest))
  {
    var t := EscapeEach(s) + "'" + rest;
    if s == [] {
      assert t == "'" + rest;
    } else {
      var tail := EscapeEach(s[1..]) + "'" + rest;
      assert t == EscapeChar(s[0]) + tail;
      ReadEscaped(s[1..], rest);
      if |EscapeChar(s[0])| == 2 {
        assert t[0] == '\\' && Unescape(t[1]) == Some(s[0]);
        assert t[2..] == tail;
      } else {
        assert t[0] == s[0];
        assert t[1..] == tail;
      }
      assert [s[0]] + s[1..] == s;
    }
  }

  /** Decoding the escapes left to right recovers the original string exactly, and
      the literal ends at the quote the printer puts after it. */
  lemma UnescapeRoundTrip(s: string, rest: string)
    ensures ReadQuoted(EscapeString(s) + "'" + rest) == Some((s, rest))
  {
    EscapeIsPerChar(s);
    ReadEscaped(s, rest);
  }

  lemma {:induction false} ReadRawKey(k: string, rest: string)
    requires '\'' !in k
    ensures ReadRawQuoted(k + "'" + rest) == Some((k, rest))
  {
    if k == [] {
      assert k + "'" + rest == "'" + rest;
    } else {
      assert (k + "'" + rest)[1..] == k[1..] + "'" + rest;
      assert '\'' !in k[1..];
      ReadRawKey(k[1..], rest);
      assert [k[0]] + k[1..] == k;
    }
  }

  lemma {:induction false} IdentSpanOf(k: string, rest: string)
    requires forall i | 0 <= i < |k| :: IsIdentPart(k[i])
    requires rest == [] || !IsIdentPart(rest[0])
    ensures IdentSpan(k + rest) == |k|
  {
    if k == [] {
      assert k + rest == rest;
    } else {
      assert (k + rest)[1..] == k[1..] + rest;
      IdentSpanOf(k[1..], rest);
    }
  }

  /** A key with no quote in it reads back from its printed form. */
  lemma KeyRoundTrip(k: string, after: string)
    requires '\'' !in k
    requires after != [] && after[0] == ':'
    ensures ReadKey(FormatKey(k) + after) == Some((k, after))
  {
    if IsIdentifier(k) {
      IdentSpanOf(k, after);
      assert (k + after)[..|k|] == k && (k + after)[|k|..] == after;
    } else {
      assert FormatKey(k) + after == "'" + (k + "'" + after);
      ReadRawKey(k, after);
    }
  }

  /** A key that holds a quote is printed inside quotes without escaping, so its
      printed form no longer reads back as the key. */
  lemma QuotedKeyIsNotEscaped()
    ensures FormatKey("it's") == "'it's'"
    ensures ReadKey(FormatKey("it's") + ": 1") == Some(("it", "s': 1"))
  {
    assert !IsIdentifier("it's") by {
      assert !IsIdentPart("it's"[2]);
    }
    assert FormatKey("it's") + ": 1" == "'it's': 1";
    assert "'s': 1"[1..] == "s': 1";
    assert ReadRawQuoted("'s': 1") == Some(("", "s': 1"));
    assert "t's': 1"[1..] == "'s': 1";
    assert "t's': 1"[0] == 't' && ['t'] + "" == "t";
    assert ReadRawQuoted("t's': 1") == Some(("t", "s': 1"));
    assert "it's': 1"[1..] == "t's': 1";
    assert "it's': 1"[0] == 'i' && ['i'] + "t" == "it";
    assert ReadRawQuoted("it's': 1") == Some(("it", "s': 1"));
    assert "'it's': 1"[1..] == "it's': 1";
  }

  lemma {:induction false} DigitsOfNat(n: nat)
    ensures DigitsValue(NatToString(n)) == n
  {
    var ds := NatToString(n);
    if n >= 10 {
      DigitsOfNat(n / 10);
      assert ds[..|ds| - 1] == NatToString(n / 10);
    }
  }

  lemma {:induction false} DigitSpanOf(ds: string, rest: string)
    requires forall i | 0 <= i < |ds| :: IsDigit(ds[i])
    requires rest == [] || !IsDigit(rest[0])
    ensures DigitSpan(ds + rest) == |ds|
  {
    if ds == [] {
      assert ds + rest == rest;
    } else {
      assert (ds + rest)[1..] == ds[1..] + rest;
      DigitSpanOf(ds[1..], rest);
    }
  }

  lemma NatRoundTrip(n: nat, rest: string)
    requires rest == [] || !IsDigit(rest[0])
    ensures ReadNat(NatToString(n) + rest) == Some((n, rest))
  {
    var ds := NatToString(n);
    DigitSpanOf(ds, rest);
    assert (ds + rest)[..|ds|] == ds && (ds + rest)[|ds|..] == rest;
    DigitsOfNat(n);
  }

  // ---------------------------------------------------------------------------
  // Values read back

  /** What may follow a printed value: anything but a digit, which would lengthen a
      number. */
  predicate Delimited(rest: string) {
    rest == [] || !IsDigit(rest[0])
  }

  /** A printed value is never empty, and starts neither with a blank nor with a
      closing bracket. */
  lemma FirstChar(v: Value, indent: string)
    ensures FormatValue(v, indent) != []
    ensures !IsSpace(FormatValue(v, indent)[0])
    ensures FormatValue(v, indent)[0] != ']' && FormatValue(v, indent)[0] != '}'
  {
    match v
    case Num(n) =>
      if n >= 0 {
        assert IsDigit(NatToString(n)[0]);
      }
    case _ =>
  }

  /** A printed key is never empty and does not start with a blank. */
  lemma KeyFirstChar(k: string)
    ensures FormatKey(k) != [] && !IsSpace(FormatKey(k)[0]) && FormatKey(k)[0] != '}'
  {
  }

  lemma StrStep(t: string, s: string, rest: string)
    requires t != [] && t[0] == '\''
    requires ReadQuoted(t[1..]) == Some((s, rest))
    ensures ParseValue(t) == Some((Str(s), rest))
  {
  }

  lemma NegStep(t: string, n: nat, rest: string)
    requires t != [] && t[0] == '-'
    requires ReadNat(t[1..]) == Some((n, rest))
    ensures ParseValue(t) == Some((Num(-(n as int)), rest))
  {
  }

  lemma NatStep(t: string, n: nat, rest: string)
    requires t != [] && IsDigit(t[0])
    requires ReadNat(t) == Some((n, rest))
    ensures ParseValue(t) == Some((Num(n), rest))
  {
  }

  lemma StrRoundTrip(s: string, indent: string, rest: string)
    ensures ParseValue(FormatValue(Str(s), indent) + rest) == Some((Str(s), rest))
  {
    var t := FormatValue(Str(s), indent) + rest;
    assert t == "'" + (EscapeString(s) + "'" + rest);
    UnescapeRoundTrip(s, rest);
    StrStep(t, s, rest);
  }

  lemma NumRoundTrip(n: int, indent: string, rest: string)
    requires Delimited(rest)
    ensures ParseValue(FormatValue(Num(n), indent) + rest) == Some((Num(n), rest))
  {
    var t := FormatValue(Num(n), indent) + rest;
    if n < 0 {
      assert t == "-" + (NatToString(-n) + rest);
      NatRoundTrip(-n, rest);
      NegStep(t, -n, rest);
    } else {
      assert t == NatToString(n) + rest;
      NatRoundTrip(n, rest);
      assert IsDigit(t[0]);
      NatStep(t, n, rest);
    }
  }

  lemma KeywordRoundTrip(v: Value, indent: string, rest: string)
    requires v.Null? || v.Undef? || v.Bool?
    ensures ParseValue(FormatValue(v, indent) + rest) == Some((v, rest))
  {
    var t := FormatValue(v, indent) + rest;
    match v
    case Null =>
      assert t[..4] == "null" && t[4..] == rest;
    case Undef =>
      assert t[..9] == "undefined" && t[9..] == rest;
    case Bool(b) =>
      if b {
        assert t[..4] == "true" && t[4..] == rest;
      } else {
        assert t[..5] == "false" && t[5..] == rest;
      }
  }

  /** A printed scalar reads back as itself. */
  lemma ScalarRoundTrip(v: Value, indent: string, rest: string)
    requires !v.Arr? && !v.Obj?
    requires Delimited(rest)
    ensures ParseValue(FormatValue(v, indent) + rest) == Some((v, rest))
  {
    match v
    case Str(s) => StrRoundTrip(s, indent, rest);
    case Num(n) => NumRoundTrip(n, indent, rest);
    case _ => KeywordRoundTrip(v, indent, rest);
  }

  lemma ArrStep(t: string, items: seq<Value>, rest: string)
    requires t != [] && t[0] == '['
    requires SkipSpace(t[1..]) != [] && SkipSpace(t[1..])[0] != ']'
    requires ParseItems(t[1..]) == Some((items, rest))
    ensures ParseValue(t) == Some((Arr(items), rest))
  {
  }

  lemma ObjStep(t: string, entries: seq<Member>, rest: string)
    requires t != [] && t[0] == '{'
    requires SkipSpace(t[1..]) != [] && SkipSpace(t[1..])[0] != '}'
    requires ParseProps(t[1..]) == Some((entries, rest))
    ensures ParseValue(t) == Some((Obj(entries), rest))
  {
  }

  /** Reading a printed value gives back the value without its undefined entries,
      and leaves the text after it untouched. */
  lemma {:induction false} ValueRoundTrip(v: Value, indent: string, rest: string)
    requires Blank(indent)
    requires QuoteFreeKeys(v)
    requires Delimited(rest)
    ensures ParseValue(FormatValue(v, indent) + rest) == Some((Normalize(v), rest))
    decreases v, 3, 0, 0
  {
    match v
    case Arr(items) =>
      ArrRoundTrip(v, indent, rest);
    case Obj(entries) =>
      ObjRoundTrip(v, indent, rest);
    case _ =>
      ScalarRoundTrip(v, indent, rest);
  }

  /** A printed token that starts neither with a blank nor with a closing bracket. */
  predicate Opens(f: string) {
    f != [] && !IsSpace(f[0]) && f[0] != ']' && f[0] != '}'
  }

  /** The text of a non-empty printed container, opened at its first bracket. */
  lemma Bracketed(open: string, j: string, indent: string, cl: string, rest: string)
    requires |open| == 1
    ensures var t := open + "\n" + j + "\n" + indent + cl + rest;
      t != [] && t[0] == open[0] && t[1..] == "\n" + j + ("\n" + indent + cl + rest)
  {
    var t := open + "\n" + j + "\n" + indent + cl + rest;
    assert t == open + ("\n" + j + ("\n" + indent + cl + rest));
  }

  /** Item `i` of a printed list sits on its own line and reads back as the item
      without its undefined entries. */
  lemma {:induction false} ItemReadBack(v: Value, indent: string, rest: string, i: int)
    requires v.Arr? && 0 <= i < |v.items| && Blank(indent) && QuoteFreeKeys(v)
    ensures var lines := ItemLines(v, indent);
      ItemLine(lines[i], indent + "  ", FormatValue(v.items[i], indent + "  "), Normalize(v).items[i],
               After(lines, i, "\n" + indent + "]" + rest))
    decreases v, 1, 0, 0
  {
    var lines := ItemLines(v, indent);
    var tail := After(lines, i, "\n" + indent + "]" + rest);
    FirstChar(v.items[i], indent + "  ");
    BlankConcat(indent, "  ");
    assert Delimited(tail);
    ValueRoundTrip(v.items[i], indent + "  ", tail);
  }

  /** Member `i` of the defined entries of a printed object sits on its own line and
      reads back as the member without its undefined entries. */
  lemma {:induction false} PropReadBack(v: Value, indent: string, rest: string, i: int)
    requires v.Obj? && 0 <= i < |Defined(v.entries)| && Blank(indent) && QuoteFreeKeys(v)
    ensures var lines := PropLines(v, indent);
      PropLine(lines[i], indent + "  ", FormatValue(Defined(v.entries)[i].val, indent + "  "),
               Normalize(v).entries[i], After(lines, i, "\n" + indent + "}" + rest))
    decreases v, 1, 0, 0
  {
    var lines := PropLines(v, indent);
    var tail := After(lines, i, "\n" + indent + "}" + rest);
    var m := Defined(v.entries)[i];
    assert '\'' !in m.key && QuoteFreeKeys(m.val) by {
      assert m in v.entries;
      var j :| 0 <= j < |v.entries| && v.entries[j] == m;
    }
    FirstChar(m.val, indent + "  ");
    BlankConcat(indent, "  ");
    assert Delimited(tail);
    ValueRoundTrip(m.val, indent + "  ", tail);
  }

  /** A non-empty list is printed as its bracket, its joined lines, and the closing
      bracket on a line of its own. */
  lemma ArrText(v: Value, indent: string, rest: string)
    requires v.Arr? && |v.items| > 0
    ensures FormatValue(v, indent) + rest
      == "[" + "\n" + Join(ItemLines(v, indent), ",\n") + "\n" + indent + "]" + rest
  {
  }

  /** The same for an object with a defined entry. */
  lemma ObjText(v: Value, indent: string, rest: string)
    requires v.Obj? && |Defined(v.entries)| > 0
    ensures FormatValue(v, indent) + rest
      == "{" + "\n" + Join(PropLines(v, indent), ",\n") + "\n" + indent + "}" + rest
  {
    var j := Join(PropLines(v, indent), ",\n");
    assert FormatValue(v, indent) == "{\n" + j + "\n" + indent + "}";
  }

  /** An empty list, or an object with no defined entry, is printed as two brackets
      and reads back as an empty container. */
  lemma EmptyRoundTrip(v: Value, indent: string, rest: string)
    requires (v.Arr? && |v.items| == 0) || (v.Obj? && |Defined(v.entries)| == 0)
    ensures ParseValue(FormatValue(v, indent) + rest) == Some((Normalize(v), rest))
  {
    var t := FormatValue(v, indent) + rest;
    if v.Arr? {
      assert t == "[" + ("]" + rest);
      assert t[1..] == "]" + rest && ("]" + rest)[1..] == rest;
      assert Normalize(v) == Arr([]);
    } else {
      assert t == "{" + ("}" + rest);
      assert t[1..] == "}" + rest && ("}" + rest)[1..] == rest;
      assert Normalize(v) == Obj([]);
    }
  }

  /** Reading a bracket, then a list of items or members. */
  lemma OpenStep(j: string, indent: string, rest: string, a: Value)
    requires a.Arr? || a.Obj?
    requires var cl := if a.Arr? then "]" else "}";
      var body := "\n" + j + ("\n" + indent + cl + rest);
      && SkipSpace(body) != [] && SkipSpace(body)[0] != cl[0]
      && (a.Arr? ==> ParseItems(body) == Some((a.items, rest)))
      && (a.Obj? ==> ParseProps(body) == Some((a.entries, rest)))
    ensures var op := if a.Arr? then "[" else "{";
      var cl := if a.Arr? then "]" else "}";
      ParseValue(op + "\n" + j + "\n" + indent + cl + rest) == Some((a, rest))
  {
    var op := if a.Arr? then "[" else "{";
    var cl := if a.Arr? then "]" else "}";
    var t := op + "\n" + j + "\n" + indent + cl + rest;
    Bracketed(op, j, indent, cl, rest);
    if a.Arr? {
      ArrStep(t, a.items, rest);
    } else {
      ObjStep(t, a.entries, rest);
    }
  }

  /** The lines of a printed non-empty list read back as its items. */
  lemma {:induction false} ArrItemsRead(v: Value, indent: string, rest: string)
    requires v.Arr? && |v.items| > 0 && Blank(indent) && QuoteFreeKeys(v)
    ensures var body := "\n" + Join(ItemLines(v, indent), ",\n") + ("\n" + indent + "]" + rest);
      && SkipSpace(body) != [] && SkipSpace(body)[0] != ']'
      && ParseItems(body) == Some((Normalize(v).items, rest))
    decreases v, 1, 1, 0
  {
    var ind2 := indent + "  ";
    var lines := ItemLines(v, indent);
    var close := "\n" + indent + "]" + rest;
    var fs := seq(|v.items|, i requires 0 <= i < |v.items| => FormatValue(v.items[i], ind2));
    var ns := Normalize(v).items;
    forall i | 0 <= i < |lines|
      ensures ItemLine(lines[i], ind2, fs[i], ns[i], After(lines, i, close))
    {
      ItemReadBack(v, indent, rest, i);
    }
    BlankConcat(indent, "  ");
    ItemsRead(lines, ind2, fs, ns, 0, "\n", indent, rest, close);
    assert lines[0..] == lines;
    assert ns[0..] == ns;
  }

  /** The lines of a printed object with defined entries read back as its members. */
  lemma {:induction false} ObjPropsRead(v: Value, indent: string, rest: string)
    requires v.Obj? && |Defined(v.entries)| > 0 && Blank(indent) && QuoteFreeKeys(v)
    ensures var body := "\n" + Join(PropLines(v, indent), ",\n") + ("\n" + indent + "}" + rest);
      && SkipSpace(body) != [] && SkipSpace(body)[0] != '}'
      && ParseProps(body) == Some((Normalize(v).entries, rest))
    decreases v, 1, 1, 0
  {
    var d := Defined(v.entries);
    var ind2 := indent + "  ";
    var lines := PropLines(v, indent);
    var close := "\n" + indent + "}" + rest;
    var fs := seq(|d|, i requires 0 <= i < |d| => FormatValue(d[i].val, ind2));
    var ms := Normalize(v).entries;
    forall i | 0 <= i < |lines|
      ensures PropLine(lines[i], ind2, fs[i], ms[i], After(lines, i, close))
    {
      PropReadBack(v, indent, rest, i);
    }
    BlankConcat(indent, "  ");
    PropsRead(lines, ind2, fs, ms, 0, "\n", indent, rest, close);
    assert lines[0..] == lines;
    assert ms[0..] == ms;
  }

  lemma {:induction false} ArrRoundTrip(v: Value, indent: string, rest: string)
    requires v.Arr?
    requires Blank(indent) && QuoteFreeKeys(v) && Delimited(rest)
    ensures ParseValue(FormatValue(v, indent) + rest) == Some((Normalize(v), rest))
    decreases v, 2, 0, 0
  {
    if |v.items| == 0 {
      EmptyRoundTrip(v, indent, rest);
    } else {
      ArrText(v, indent, rest);
      ArrItemsRead(v, indent, rest);
      OpenStep(Join(ItemLines(v, indent), ",\n"), indent, rest, Normalize(v));
    }
  }

  lemma {:induction false} ObjRoundTrip(v: Value, indent: string, rest: string)
    requires v.Obj?
    requires Blank(indent) && QuoteFreeKeys(v) && Delimited(rest)
    ensures ParseValue(FormatValue(v, indent) + rest) == Some((Normalize(v), rest))
    decreases v, 2, 0, 0
  {
    if |Defined(v.entries)| == 0 {
      EmptyRoundTrip(v, indent, rest);
    } else {
      ObjText(v, indent, rest);
      ObjPropsRead(v, indent, rest);
      OpenStep(Join(PropLines(v, indent), ",\n"), indent, rest, Normalize(v));
    }
  }

  /** The joined lines from line `k` on: the first line, then either the rest after
      `,\n` or nothing. */
  lemma JoinFrom(lines: seq<string>, k: int)
    requires 0 <= k < |lines|
    ensures k + 1 < |lines| ==> Join(lines[k..], ",\n") == lines[k] + ",\n" + Join(lines[k + 1..], ",\n")
    ensures k + 1 == |lines| ==> Join(lines[k..], ",\n") == lines[k]
  {
    assert lines[k..][0] == lines[k];
    if k + 1 < |lines| {
      assert lines[k..][1..] == lines[k + 1..];
    }
  }

  /** One step of reading a list: a value, then a comma and more items. */
  lemma ItemsStepMore(t: string, a: Value, tail: string, more: seq<Value>, rest: string)
    requires ParseValue(SkipSpace(t)) == Some((a, tail))
    requires tail != [] && tail[0] == ','
    requires ParseItems(tail[1..]) == Some((more, rest))
    ensures ParseItems(t) == Some(([a] + more, rest))
  {
    assert SkipSpace(tail) == tail;
  }

  /** The last step of reading a list: a value, then the closing bracket. */
  lemma ItemsStepLast(t: string, a: Value, tail: string, rest: string)
    requires ParseValue(SkipSpace(t)) == Some((a, tail))
    requires SkipSpace(tail) == "]" + rest
    ensures ParseItems(t) == Some(([a], rest))
  {
    assert ("]" + rest)[1..] == rest;
  }

  /** One step of reading an object: key, colon, value, then a comma and more. */
  lemma PropsStepMore(t: string, key: string, after: string, a: Value, tail: string, more: seq<Member>, rest: string)
    requires ReadKey(SkipSpace(t)) == Some((key, after))
    requires SkipSpace(after) == after && after != [] && after[0] == ':'
    requires ParseValue(SkipSpace(after[1..])) == Some((a, tail))
    requires tail != [] && tail[0] == ','
    requires ParseProps(tail[1..]) == Some((more, rest))
    ensures ParseProps(t) == Some(([Member(key, a)] + more, rest))
  {
    assert SkipSpace(tail) == tail;
  }

  /** The last step of reading an object: key, colon, value, closing brace. */
  lemma PropsStepLast(t: string, key: string, after: string, a: Value, tail: string, rest: string)
    requires ReadKey(SkipSpace(t)) == Some((key, after))
    requires SkipSpace(after) == after && after != [] && after[0] == ':'
    requires ParseValue(SkipSpace(after[1..])) == Some((a, tail))
    requires SkipSpace(tail) == "}" + rest
    ensures ParseProps(t) == Some(([Member(key, a)], rest))
  {
    assert ("}" + rest)[1..] == rest;
  }

  /** What follows line `k` of a printed list: `,\n` and the next lines, or the
      closing line. */
  function After(lines: seq<string>, k: int, close: string): string
    requires 0 <= k < |lines|
  {
    if k + 1 < |lines| then ",\n" + Join(lines[k + 1..], ",\n") + close else close
  }

  lemma LinesText(lines: seq<string>, k: int, w: string, close: string)
    requires 0 <= k < |lines|
    ensures w + Join(lines[k..], ",\n") + close == w + lines[k] + After(lines, k, close)
  {
    JoinFrom(lines, k);
  }

  lemma SkipPrefixed(w: string, pre: string, x: string, y: string)
    requires Blank(w) && Blank(pre) && x != [] && !IsSpace(x[0])
    ensures SkipSpace(w + (pre + x) + y) == x + y
  {
    BlankConcat(w, pre);
    assert w + (pre + x) + y == (w + pre) + (x + y);
    SkipOver(w + pre, x + y);
  }

  /** A line of a printed list: a blank prefix, then a token that reads back as
      `n` when `tail` follows it. */
  predicate ItemLine(line: string, pre: string, f: string, n: Value, tail: string) {
    line == pre + f && Opens(f) && ParseValue(f + tail) == Some((n, tail))
  }

  /** A line of a printed object: a blank prefix, a quote-free key, `: `, then a
      token that reads back as the member's value when `tail` follows it. */
  predicate PropLine(line: string, pre: string, f: string, m: Member, tail: string) {
    && line == pre + FormatKey(m.key) + ": " + f
    && '\'' !in m.key && Opens(f)
    && ParseValue(f + tail) == Some((m.val, tail))
  }

  /** A suffix of a sequence is its first element and the suffix after it. */
  lemma SliceCons<T>(s: seq<T>, k: int)
    requires 0 <= k < |s|
    ensures s[k..] == [s[k]] + s[k + 1..]
    ensures k + 1 == |s| ==> s[k..] == [s[k]]
  {
  }

  /** Line `k` of the joined lines, after the blanks that start it. */
  lemma LineSkip(lines: seq<string>, k: int, w: string, pre: string, x: string, close: string)
    requires 0 <= k < |lines| && Blank(w) && Blank(pre)
    requires lines[k] == pre + x && x != [] && !IsSpace(x[0])
    ensures SkipSpace(w + Join(lines[k..], ",\n") + close) == x + After(lines, k, close)
  {
    LinesText(lines, k, w, close);
    SkipPrefixed(w, pre, x, After(lines, k, close));
  }

  /** After a line that is not the last come a comma and the next lines. */
  lemma MoreLines(lines: seq<string>, k: int, close: string)
    requires 0 <= k && k + 1 < |lines|
    ensures After(lines, k, close) != [] && After(lines, k, close)[0] == ','
    ensures After(lines, k, close)[1..] == "\n" + Join(lines[k + 1..], ",\n") + close
  {
  }

  /** The closing line: a line break, the indentation, the bracket. */
  lemma CloseSkip(indent: string, cl: string, rest: string)
    requires Blank(indent) && |cl| == 1 && !IsSpace(cl[0])
    ensures SkipSpace("\n" + indent + cl + rest) == cl + rest
  {
    assert "\n" + indent + cl + rest == ("\n" + indent) + (cl + rest);
    assert ("\n" + indent)[1..] == indent;
    SkipOver("\n" + indent, cl + rest);
  }

  /** Reading the lines of a printed list from line `k` on, when every line is a
      blank prefix and a token that reads back as its value. */
  lemma {:induction false} ItemsRead(lines: seq<string>, pre: string, fs: seq<string>, ns: seq<Value>,
                                     k: int, w: string, indent: string, rest: string, close: string)
    requires |lines| == |fs| == |ns| && 0 <= k < |lines|
    requires Blank(pre) && Blank(w) && Blank(indent) && close == "\n" + indent + "]" + rest
    requires forall i | 0 <= i < |lines| :: ItemLine(lines[i], pre, fs[i], ns[i], After(lines, i, close))
    ensures var t := w + Join(lines[k..], ",\n") + close;
      SkipSpace(t) != [] && SkipSpace(t)[0] != ']' && ParseItems(t) == Some((ns[k..], rest))
    decreases |lines| - k
  {
    var t := w + Join(lines[k..], ",\n") + close;
    var tail := After(lines, k, close);
    assert ItemLine(lines[k], pre, fs[k], ns[k], tail);
    LineSkip(lines, k, w, pre, fs[k], close);
    if k + 1 < |lines| {
      MoreLines(lines, k, close);
      ItemsRead(lines, pre, fs, ns, k + 1, "\n", indent, rest, close);
      ItemsStepMore(t, ns[k], tail, ns[k + 1..], rest);
      SliceCons(ns, k);
    } else {
      CloseSkip(indent, "]", rest);
      ItemsStepLast(t, ns[k], tail, rest);
      SliceCons(ns, k);
    }
  }

  /** A printed `key: value` pair reads as its key, then a colon, then the value. */
  lemma KeyValueText(key: string, f: string, tail: string)
    requires '\'' !in key && Opens(f)
    ensures var text := FormatKey(key) + ": " + f + tail;
      var after := ": " + f + tail;
      && text != [] && text[0] != '}'
      && ReadKey(text) == Some((key, after))
      && SkipSpace(after) == after && after != [] && after[0] == ':'
      && SkipSpace(after[1..]) == f + tail
  {
    var after := ": " + f + tail;
    KeyFirstChar(key);
    assert FormatKey(key) + ": " + f + tail == FormatKey(key) + after;
    KeyRoundTrip(key, after);
    assert after[1..] == " " + (f + tail);
    SkipOver(" ", f + tail);
  }

  /** Line `k` of a printed object, after its blanks: the key, a colon, and the
      value, which reads back and leaves the text after the line. */
  lemma PropHeadRead(lines: seq<string>, pre: string, fs: seq<string>, ms: seq<Member>,
                     k: int, w: string, close: string)
    requires |lines| == |fs| == |ms| && 0 <= k < |lines| && Blank(w) && Blank(pre)
    requires PropLine(lines[k], pre, fs[k], ms[k], After(lines, k, close))
    ensures var t := w + Join(lines[k..], ",\n") + close;
      var tail := After(lines, k, close);
      var after := ": " + fs[k] + tail;
      && SkipSpace(t) != [] && SkipSpace(t)[0] != '}'
      && ReadKey(SkipSpace(t)) == Some((ms[k].key, after))
      && SkipSpace(after) == after && after != [] && after[0] == ':'
      && ParseValue(SkipSpace(after[1..])) == Some((ms[k].val, tail))
  {
    var m := ms[k];
    var tail := After(lines, k, close);
    var key := FormatKey(m.key);
    var x := key + ": " + fs[k];
    assert lines[k] == pre + x;
    KeyFirstChar(m.key);
    assert x[0] == key[0];
    LineSkip(lines, k, w, pre, x, close);
    assert x + tail == key + ": " + fs[k] + tail;
    KeyValueText(m.key, fs[k], tail);
  }

  /** One step of reading the lines of a printed object: line `k`, then the lines
      after it. */
  lemma PropsMoreLines(lines: seq<string>, pre: string, fs: seq<string>, ms: seq<Member>,
                       k: int, w: string, close: string, rest: string)
    requires KeyedLines(lines, pre, fs, ms, close) && 0 <= k && k + 1 < |lines| && Blank(w)
    requires ParseProps("\n" + Join(lines[k + 1..], ",\n") + close) == Some((ms[k + 1..], rest))
    ensures var t := w + Join(lines[k..], ",\n") + close;
      SkipSpace(t) != [] && SkipSpace(t)[0] != '}' && ParseProps(t) == Some((ms[k..], rest))
  {
    assert PropLine(lines[k], pre, fs[k], ms[k], After(lines, k, close));
    PropHeadRead(lines, pre, fs, ms, k, w, close);
    var tail := After(lines, k, close);
    MoreLines(lines, k, close);
    PropsStepMore(w + Join(lines[k..], ",\n") + close, ms[k].key, ": " + fs[k] + tail, ms[k].val, tail, ms[k + 1..], rest);
    SliceCons(ms, k);
  }

  /** The last line of a printed object, then its closing line. */
  lemma PropsLastLine(lines: seq<string>, pre: string, fs: seq<string>, ms: seq<Member>,
                      k: int, w: string, indent: string, rest: string, close: string)
    requires KeyedLines(lines, pre, fs, ms, close) && 0 <= k && k + 1 == |lines| && Blank(w)
    requires Blank(indent) && close == "\n" + indent + "}" + rest
    ensures var t := w + Join(lines[k..], ",\n") + close;
      SkipSpace(t) != [] && SkipSpace(t)[0] != '}' && ParseProps(t) == Some((ms[k..], rest))
  {
    assert PropLine(lines[k], pre, fs[k], ms[k], After(lines, k, close));
    PropHeadRead(lines, pre, fs, ms, k, w, close);
    var tail := After(lines, k, close);
    CloseSkip(indent, "}", rest);
    PropsStepLast(w + Join(lines[k..], ",\n") + close, ms[k].key, ": " + fs[k] + tail, ms[k].val, tail, rest);
    SliceCons(ms, k);
  }

  /** The lines of a printed object, each a blank prefix `pre`, a quote-free key, `: `
      and a token that reads back as the member's value. */
  predicate KeyedLines(lines: seq<string>, pre: string, fs: seq<string>, ms: seq<Member>, close: string) {
    && |lines| == |fs| == |ms| && Blank(pre)
    && forall i {:trigger PropLine(lines[i], pre, fs[i], ms[i], After(lines, i, close))} | 0 <= i < |lines| ::
         PropLine(lines[i], pre, fs[i], ms[i], After(lines, i, close))
  }

  /** Reading the lines of a printed object from line `k` on, when every line is a
      blank prefix, a quote-free key, `: ` and a token that reads back as its value. */
  lemma {:induction false} PropsRead(lines: seq<string>, pre: string, fs: seq<string>, ms: seq<Member>,
                                     k: int, w: string, indent: string, rest: string, close: string)
    requires KeyedLines(lines, pre, fs, ms, close) && 0 <= k < |lines|
    requires Blank(w) && Blank(indent) && close == "\n" + indent + "}" + rest
    ensures var t := w + Join(lines[k..], ",\n") + close;
      SkipSpace(t) != [] && SkipSpace(t)[0] != '}' && ParseProps(t) == Some((ms[k..], rest))
    decreases |lines| - k
  {
    if k + 1 < |lines| {
      PropsRead(lines, pre, fs, ms, k + 1, "\n", indent, rest, close);
      PropsMoreLines(lines, pre, fs, ms, k, w, close, rest);
    } else {
      PropsLastLine(lines, pre, fs, ms, k, w, indent, rest, close);
    }
  }
}
