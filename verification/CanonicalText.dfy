// The canonical text itself, json.loads on such texts, and the round trip.
module CanonicalText {
  import opened Wrappers
  import opened Json
  import opened Canonical

  function Chars(s: string): (t: Text)
    ensures |t| == |s| && forall i :: 0 <= i < |s| ==> t[i] == Ch(s[i])
  {
    seq(|s|, i requires 0 <= i < |s| => Ch(s[i]))
  }

  // ----- writing -----

  const HEX := "0123456789abcdef"

  function EscapeChar(c: char): string {
    if c == '"' then "\\\""
    else if c == '\\' then "\\\\"
    else if c == '\n' then "\\n"
    else if c == '\r' then "\\r"
    else if c == '\t' then "\\t"
    else if c as int == 12 then "\\f"
    else if c as int == 8 then "\\b"
    else if c as int < 32 then "\\u00" + [HEX[c as int / 16], HEX[c as int % 16]]
    else [c]
  }

  function Escape(s: string): Text {
    if s == "" then [] else Chars(EscapeChar(s[0])) + Escape(s[1..])
  }

  function Quote(s: string): Text {
    [Ch('"')] + Escape(s) + [Ch('"')]
  }

  // json.dumps without sorting, on a value whose keys are sorted already.
  function Render(v: Value): Text
    decreases v, 1
  {
    match v
    case Null => Chars("null")
    case Bool(b) => if b then Chars("true") else Chars("false")
    case Int(n) => Chars(IntText(n))
    case Float(r) => Chars(r)
    case Str(s) => Quote(s)
    case HexStr(h) => [Ch('"'), Hex(h), Ch('"')]
    case Arr(xs) => [Ch('[')] + RenderItems(xs) + [Ch(']')]
    case Obj(fs) => [Ch('{')] + RenderFields(fs) + [Ch('}')]
  }

  function RenderItems(xs: seq<Value>): Text
    decreases xs, 0
  {
    if xs == [] then []
    else if |xs| == 1 then Render(xs[0])
    else Render(xs[0]) + [Ch(',')] + RenderItems(xs[1..])
  }

  function RenderFields(fs: seq<Field>): Text
    decreases fs, 0
  {
    if fs == [] then []
    else if |fs| == 1 then RenderField(fs[0])
    else RenderField(fs[0]) + [Ch(',')] + RenderFields(fs[1..])
  }

  function RenderField(f: Field): Text
    decreases f, 0
  {
    Quote(f.key) + [Ch(':')] + Render(f.val)
  }

  function CanonicalJson(v: Value): Text {
    Render(Canon(v))
  }

  // ----- reading -----

  predicate NumberGlyph(g: Glyph) {
    g.Ch? && NumberChar(g.c)
  }

  function Span(t: Text): (n: nat)
    ensures n <= |t| && forall i :: 0 <= i < n ==> NumberGlyph(t[i])
  {
    if t == [] || !NumberGlyph(t[0]) then 0 else 1 + Span(t[1..])
  }

  function DigitValue(c: char): Option<nat> {
    if '0' <= c <= '9' then Some(c as int - '0' as int) else None
  }

  function ReadNat(s: string): Option<nat>
    requires s != []
  {
    match DigitValue(s[|s| - 1])
    case None => None
    case Some(d) =>
      if |s| == 1 then Some(d)
      else match ReadNat(s[..|s| - 1])
        case None => None
        case Some(hi) => Some(10 * hi + d)
  }

  function ReadNumber(s: string): Option<Value> {
    if s == "" then None
    else if '.' in s || 'e' in s then (if FloatRepr(s) then Some(Float(s)) else None)
    else if s[0] == '-' then
      if s == "-" then None
      else match ReadNat(s[1..])
        case Some(n) => Some(Int(0 - n as int))
        case None => None
    else match ReadNat(s)
      case Some(n) => Some(Int(n))
      case None => None
  }

  function HexValue(c: char): Option<nat> {
    if '0' <= c <= '9' then Some(c as int - '0' as int)
    else if 'a' <= c <= 'f' then Some(c as int - 'a' as int + 10)
    else None
  }

  // One character of a string literal and the rest of the text.
  function ReadChar(t: Text): (r: Option<(char, Text)>)
    ensures r.Some? ==> |r.value.1| < |t|
  {
    if t == [] || !t[0].Ch? || t[0].c == '"' || t[0].c as int < 32 then None
    else if t[0].c != '\\' then Some((t[0].c, t[1..]))
    else if |t| < 2 || !t[1].Ch? then None
    else
      var c := t[1].c;
      if c == '"' || c == '\\' || c == '/' then Some((c, t[2..]))
      else if c == 'n' then Some(('\n', t[2..]))
      else if c == 'r' then Some(('\r', t[2..]))
      else if c == 't' then Some(('\t', t[2..]))
      else if c == 'f' then Some((12 as char, t[2..]))
      else if c == 'b' then Some((8 as char, t[2..]))
      else if c == 'u' && |t| >= 6 && t[2] == Ch('0') && t[3] == Ch('0') && t[4].Ch? && t[5].Ch?
              && HexValue(t[4].c).Some? && HexValue(t[5].c).Some? then
        Some(((16 * HexValue(t[4].c).value + HexValue(t[5].c).value) as char, t[6..]))
      else None
  }

  // The rest of a string literal after its opening quote.
  function ReadString(t: Text): (r: Option<(string, Text)>)
    ensures r.Some? ==> |r.value.1| < |t|
    decreases |t|
  {
    if t != [] && t[0] == Ch('"') then Some(("", t[1..]))
    else match ReadChar(t)
      case None => None
      case Some((c, rest)) =>
        match ReadString(rest)
        case None => None
        case Some((s, rest')) => Some(([c] + s, rest'))
  }

  predicate StartsWith(t: Text, word: string) {
    |word| <= |t| && forall i :: 0 <= i < |word| ==> t[i] == Ch(word[i])
  }

  function ReadValue(t: Text): (r: Option<(Value, Text)>)
    ensures r.Some? ==> |r.value.1| < |t|
    decreases |t|, 1
  {
    if t == [] || !t[0].Ch? then None
    else if StartsWith(t, "null") then Some((Null, t[4..]))
    else if StartsWith(t, "true") then Some((Bool(true), t[4..]))
    else if StartsWith(t, "false") then Some((Bool(false), t[5..]))
    else if t[0].c == '"' then
      if |t| >= 3 && t[1].Hex? && t[2] == Ch('"') then Some((HexStr(t[1].h), t[3..]))
      else match ReadString(t[1..])
        case None => None
        case Some((s, rest)) => Some((Str(s), rest))
    else if t[0].c == '[' then
      if |t| >= 2 && t[1] == Ch(']') then Some((Arr([]), t[2..]))
      else match ReadItems(t[1..])
        case None => None
        case Some((xs, rest)) => Some((Arr(xs), rest))
    else if t[0].c == '{' then
      if |t| >= 2 && t[1] == Ch('}') then Some((Obj([]), t[2..]))
      else match ReadFields(t[1..])
        case None => None
        case Some((fs, rest)) => Some((Obj(fs), rest))
    else
      var n := Span(t);
      if n == 0 then None
      else match ReadNumber(seq(n, i requires 0 <= i < n => t[i].c))
        case None => None
        case Some(v) => Some((v, t[n..]))
  }

  // One or more items up to the closing bracket.
  function ReadItems(t: Text): (r: Option<(seq<Value>, Text)>)
    ensures r.Some? ==> |r.value.1| < |t|
    decreases |t|, 2
  {
    match ReadValue(t)
    case None => None
    case Some((v, rest)) =>
      if rest == [] then None
      else if rest[0] == Ch(']') then Some(([v], rest[1..]))
      else if rest[0] == Ch(',') then
        match ReadItems(rest[1..])
        case None => None
        case Some((vs, rest')) => Some(([v] + vs, rest'))
      else None
  }

  function ReadField(t: Text): (r: Option<(Field, Text)>)
    ensures r.Some? ==> |r.value.1| < |t|
    decreases |t|, 2
  {
    if t == [] || t[0] != Ch('"') then None
    else match ReadString(t[1..])
      case None => None
      case Some((k, rest)) =>
        if rest == [] || rest[0] != Ch(':') then None
        else match ReadValue(rest[1..])
          case None => None
          case Some((v, rest')) => Some((Field(k, v), rest'))
  }

  function ReadFields(t: Text): (r: Option<(seq<Field>, Text)>)
    ensures r.Some? ==> |r.value.1| < |t|
    decreases |t|, 3
  {
    match ReadField(t)
    case None => None
    case Some((f, rest)) =>
      if rest == [] then None
      else if rest[0] == Ch('}') then Some(([f], rest[1..]))
      else if rest[0] == Ch(',') then
        match ReadFields(rest[1..])
        case None => None
        case Some((fs, rest')) => Some(([f] + fs, rest'))
      else None
  }

  // json.loads
  function Loads(t: Text): Option<Value> {
    match ReadValue(t)
    case Some((v, rest)) => if rest == [] then Some(v) else None
    case None => None
  }

  // ----- reading back what was written -----

  lemma {:induction false} ReadDecimal(n: nat)
    ensures ReadNat(Decimal(n)) == Some(n)
  {
    if n >= 10 {
      ReadDecimal(n / 10);
      var s := Decimal(n);
      assert s[..|s| - 1] == Decimal(n / 10) && s[|s| - 1] == Digit(n % 10);
    }
  }

  lemma ReadNegative(d: string, n: nat)
    requires d != "" && ReadNat(d) == Some(n)
    requires forall i :: 0 <= i < |d| ==> '0' <= d[i] <= '9'
    ensures ReadNumber("-" + d) == Some(Int(0 - n as int))
  {
    var s := "-" + d;
    assert s[0] == '-' && s[1..] == d && s != "-";
    assert forall i :: 0 <= i < |s| ==> s[i] != '.' && s[i] != 'e';
  }

  lemma ReadIntText(n: int)
    ensures ReadNumber(IntText(n)) == Some(Int(n))
  {
    if n < 0 {
      ReadDecimal(-n);
      ReadNegative(Decimal(-n), -n);
    } else {
      ReadDecimal(n);
    }
  }

  lemma {:induction false} SpanChars(s: string, rest: Text)
    requires forall i :: 0 <= i < |s| ==> NumberChar(s[i])
    requires Stops(rest)
    ensures Span(Chars(s) + rest) == |s|
  {
    if s == "" {
      assert Chars(s) + rest == rest;
    } else {
      SpanChars(s[1..], rest);
      assert (Chars(s) + rest)[1..] == Chars(s[1..]) + rest;
    }
  }

  // The text does not continue a number.
  ghost predicate Stops(rest: Text) {
    rest == [] || !NumberGlyph(rest[0])
  }

  lemma ReadEscapedChar(c: char, rest: Text)
    ensures ReadChar(Chars(EscapeChar(c)) + rest) == Some((c, rest))
    ensures (Chars(EscapeChar(c)) + rest)[0] != Ch('"')
  {
    var t := Chars(EscapeChar(c)) + rest;
    assert t[|EscapeChar(c)|..] == rest;
  }

  lemma {:induction false} ReadEscaped(s: string, rest: Text)
    ensures ReadString(Escape(s) + ([Ch('"')] + rest)) == Some((s, rest))
  {
    var quoted := [Ch('"')] + rest;
    if s == "" {
      assert Escape(s) + quoted == quoted;
      assert quoted[1..] == rest;
    } else {
      var tail := Escape(s[1..]) + quoted;
      assert Escape(s) + quoted == Chars(EscapeChar(s[0])) + tail;
      ReadEscapedChar(s[0], tail);
      ReadEscaped(s[1..], rest);
      assert s == [s[0]] + s[1..];
    }
  }

  lemma ReadQuoted(s: string, rest: Text)
    ensures ReadString((Quote(s) + rest)[1..]) == Some((s, rest))
    ensures (Quote(s) + rest)[0] == Ch('"')
    ensures |Quote(s) + rest| >= 2 && (Quote(s) + rest)[1].Ch?
  {
    hide Escape, ReadString;
    ReadEscaped(s, rest);
    EscapeStart(s);
    assert (Quote(s) + rest)[1..] == Escape(s) + ([Ch('"')] + rest);
  }

  // Escaped text never starts with a digest glyph.
  lemma EscapeStart(s: string)
    ensures s != "" ==> Escape(s) != [] && Escape(s)[0].Ch?
    ensures s == "" ==> Escape(s) == []
  {
  }

  lemma RenderStart(v: Value)
    requires WellFormed(v)
    ensures Render(v) != [] && Render(v)[0].Ch?
    ensures Render(v)[0] != Ch(']') && Render(v)[0] != Ch('}')
  {
  }

  lemma ReadRenderedNumber(s: string, v: Value, rest: Text)
    requires s != "" && ('0' <= s[0] <= '9' || s[0] == '-') && Stops(rest)
    requires forall i :: 0 <= i < |s| ==> NumberChar(s[i])
    requires ReadNumber(s) == Some(v)
    ensures ReadValue(Chars(s) + rest) == Some((v, rest))
  {
    SpanChars(s, rest);
    var t := Chars(s) + rest;
    assert t[0] == Ch(s[0]);
    assert seq(|s|, i requires 0 <= i < |s| => t[i].c) == s;
    assert t[|s|..] == rest;
  }

  lemma ReadRenderedWord(v: Value, rest: Text)
    requires v.Null? || v.Bool?
    ensures ReadValue(Render(v) + rest) == Some((v, rest))
  {
    var n := if v == Bool(false) then 5 else 4;
    assert (Render(v) + rest)[n..] == rest;
  }

  lemma ReadRenderedString(v: Value, rest: Text)
    requires v.Str? || v.HexStr?
    ensures ReadValue(Render(v) + rest) == Some((v, rest))
  {
    var t := Render(v) + rest;
    if v.Str? {
      ReadQuoted(v.s, rest);
    } else {
      assert t[3..] == rest;
    }
  }

  lemma Regroup(a: Text, b: Text, c: Text, d: Text)
    ensures a + b + c + d == a + (b + (c + d))
  {
  }

  lemma RenderItemsStart(xs: seq<Value>)
    requires xs != [] && WellFormed(xs[0])
    ensures RenderItems(xs) != [] && RenderItems(xs)[0] != Ch(']')
  {
    RenderStart(xs[0]);
  }

  lemma RenderFieldsStart(fs: seq<Field>)
    requires fs != []
    ensures RenderFields(fs) != [] && RenderFields(fs)[0] == Ch('"')
  {
    assert RenderField(fs[0])[0] == Ch('"');
  }

  lemma {:induction false} ReadRendered(v: Value, rest: Text)
    requires WellFormed(v) && Stops(rest)
    ensures ReadValue(Render(v) + rest) == Some((v, rest))
    decreases v, 1
  {
    match v
    case Int(n) =>
      ReadIntText(n);
      ReadRenderedNumber(IntText(n), v, rest);
    case Float(r) =>
      ReadRenderedNumber(r, v, rest);
    case Arr(xs) =>
      if xs == [] {
        ReadEmpty(rest);
      } else {
        ReadRenderedItems(xs, rest);
        RenderItemsStart(xs);
        ReadArrayParts(xs, RenderItems(xs) + ([Ch(']')] + rest), rest);
        Regroup([Ch('[')], RenderItems(xs), [Ch(']')], rest);
      }
    case Obj(fs) =>
      if fs == [] {
        ReadEmpty(rest);
      } else {
        ReadRenderedFields(fs, rest);
        RenderFieldsStart(fs);
        ReadObjectParts(fs, RenderFields(fs) + ([Ch('}')] + rest), rest);
        Regroup([Ch('{')], RenderFields(fs), [Ch('}')], rest);
      }
    case Str(_) => ReadRenderedString(v, rest);
    case HexStr(_) => ReadRenderedString(v, rest);
    case Null => ReadRenderedWord(v, rest);
    case Bool(_) => ReadRenderedWord(v, rest);
  }

  lemma NotAWord(t: Text)
    requires t != [] && t[0].Ch? && t[0].c !in {'n', 't', 'f'}
    ensures !StartsWith(t, "null") && !StartsWith(t, "true") && !StartsWith(t, "false")
  {
    assert "null"[0] == 'n' && "true"[0] == 't' && "false"[0] == 'f';
  }

  lemma ReadArrayParts(xs: seq<Value>, body: Text, rest: Text)
    requires body != [] && body[0] != Ch(']')
    requires ReadItems(body) == Some((xs, rest))
    ensures ReadValue([Ch('[')] + body) == Some((Arr(xs), rest))
  {
    var t := [Ch('[')] + body;
    assert t[1..] == body && t[0] == Ch('[') && t[1] == body[0];
    NotAWord(t);
  }

  lemma ReadObjectParts(fs: seq<Field>, body: Text, rest: Text)
    requires body != [] && body[0] != Ch('}')
    requires ReadFields(body) == Some((fs, rest))
    ensures ReadValue([Ch('{')] + body) == Some((Obj(fs), rest))
  {
    var t := [Ch('{')] + body;
    assert t[1..] == body && t[0] == Ch('{') && t[1] == body[0];
    NotAWord(t);
  }

  lemma ReadEmpty(rest: Text)
    ensures ReadValue(Render(Arr([])) + rest) == Some((Arr([]), rest))
    ensures ReadValue(Render(Obj([])) + rest) == Some((Obj([]), rest))
  {
    assert (Render(Arr([])) + rest)[2..] == rest;
    assert (Render(Obj([])) + rest)[2..] == rest;
  }

  lemma ReadItemsLast(x: Value, item: Text, rest: Text)
    requires ReadValue(item) == Some((x, [Ch(']')] + rest))
    ensures ReadItems(item) == Some(([x], rest))
  {
    assert ([Ch(']')] + rest)[1..] == rest;
  }

  lemma ReadItemsMore(x: Value, xs: seq<Value>, item: Text, tail: Text, rest: Text)
    requires ReadValue(item) == Some((x, [Ch(',')] + tail))
    requires ReadItems(tail) == Some((xs, rest))
    ensures ReadItems(item) == Some(([x] + xs, rest))
  {
    assert ([Ch(',')] + tail)[1..] == tail;
  }

  lemma {:induction false} ReadRenderedItems(xs: seq<Value>, rest: Text)
    requires xs != [] && forall i :: 0 <= i < |xs| ==> WellFormed(xs[i])
    ensures ReadItems(RenderItems(xs) + ([Ch(']')] + rest)) == Some((xs, rest))
    decreases xs, 0
  {
    var close := [Ch(']')] + rest;
    if |xs| == 1 {
      ReadRendered(xs[0], close);
      ReadItemsLast(xs[0], Render(xs[0]) + close, rest);
      assert xs == [xs[0]];
    } else {
      var tail := RenderItems(xs[1..]) + close;
      ReadRendered(xs[0], [Ch(',')] + tail);
      ReadRenderedItems(xs[1..], rest);
      ReadItemsMore(xs[0], xs[1..], Render(xs[0]) + ([Ch(',')] + tail), tail, rest);
      RenderItemsMore(xs, close);
      assert xs == [xs[0]] + xs[1..];
    }
  }

  lemma RenderItemsMore(xs: seq<Value>, close: Text)
    requires |xs| > 1
    ensures RenderItems(xs) + close == Render(xs[0]) + ([Ch(',')] + (RenderItems(xs[1..]) + close))
  {
    Regroup(Render(xs[0]), [Ch(',')], RenderItems(xs[1..]), close);
  }

  lemma ReadFieldParts(k: string, v: Value, value: Text, rest: Text)
    requires ReadValue(value) == Some((v, rest))
    ensures ReadField(Quote(k) + ([Ch(':')] + value)) == Some((Field(k, v), rest))
  {
    var tail := [Ch(':')] + value;
    ReadQuoted(k, tail);
    assert tail[1..] == value;
  }

  lemma ReadFieldsLast(f: Field, field: Text, rest: Text)
    requires ReadField(field) == Some((f, [Ch('}')] + rest))
    ensures ReadFields(field) == Some(([f], rest))
  {
    assert ([Ch('}')] + rest)[1..] == rest;
  }

  lemma ReadFieldsMore(f: Field, fs: seq<Field>, field: Text, tail: Text, rest: Text)
    requires ReadField(field) == Some((f, [Ch(',')] + tail))
    requires ReadFields(tail) == Some((fs, rest))
    ensures ReadFields(field) == Some(([f] + fs, rest))
  {
    assert ([Ch(',')] + tail)[1..] == tail;
  }

  lemma {:induction false} ReadRenderedField(f: Field, rest: Text)
    requires WellFormed(f.val) && Stops(rest)
    ensures ReadField(RenderField(f) + rest) == Some((f, rest))
    decreases f, 0
  {
    ReadRendered(f.val, rest);
    ReadFieldParts(f.key, f.val, Render(f.val) + rest, rest);
    Regroup(Quote(f.key), [Ch(':')], Render(f.val), rest);
  }

  lemma {:induction false} ReadRenderedFields(fs: seq<Field>, rest: Text)
    requires fs != [] && forall i :: 0 <= i < |fs| ==> WellFormed(fs[i].val)
    ensures ReadFields(RenderFields(fs) + ([Ch('}')] + rest)) == Some((fs, rest))
    decreases fs, 0
  {
    var close := [Ch('}')] + rest;
    if |fs| == 1 {
      ReadRenderedField(fs[0], close);
      ReadFieldsLast(fs[0], RenderField(fs[0]) + close, rest);
      assert fs == [fs[0]];
    } else {
      var tail := RenderFields(fs[1..]) + close;
      ReadRenderedField(fs[0], [Ch(',')] + tail);
      ReadRenderedFields(fs[1..], rest);
      ReadFieldsMore(fs[0], fs[1..], RenderField(fs[0]) + ([Ch(',')] + tail), tail, rest);
      RenderFieldsMore(fs, close);
      assert fs == [fs[0]] + fs[1..];
    }
  }

  lemma RenderFieldsMore(fs: seq<Field>, close: Text)
    requires |fs| > 1
    ensures RenderFields(fs) + close == RenderField(fs[0]) + ([Ch(',')] + (RenderFields(fs[1..]) + close))
  {
    Regroup(RenderField(fs[0]), [Ch(',')], RenderFields(fs[1..]), close);
  }

  // Round trip: loading a canonical text gives the value with its keys sorted.
  lemma LoadsCanonicalJson(v: Value)
    requires WellFormed(v)
    ensures Loads(CanonicalJson(v)) == Some(Canon(v))
  {
    CanonWellFormed(v);
    ReadRendered(Canon(v), []);
    assert CanonicalJson(v) + [] == CanonicalJson(v);
  }

  // A canonical text identifies its value up to key order, and nothing else.
  lemma CanonicalJsonIdentifies(a: Value, b: Value)
    requires WellFormed(a) && WellFormed(b)
    ensures CanonicalJson(a) == CanonicalJson(b) <==> Same(a, b)
  {
    LoadsCanonicalJson(a);
    LoadsCanonicalJson(b);
    SameCanon(a, b);
  }
}
