// JSON values as the runtime holds them in memory, and the few Python
// operations on them that the capture code relies on.
//
// A dict is a list of fields in insertion order with unique keys. The digest of
// a text is the text itself under a constructor, so distinct texts have
// distinct digests (collision-freeness of SHA-256, FIPS 180-4). The 64
// hexadecimal characters of a digest are one glyph of text.
module Json {
  import opened Wrappers

  datatype Glyph = Ch(c: char) | Hex(h: Hash)
  datatype Hash = Sha256(text: seq<Glyph>)
  type Text = seq<Glyph>

  datatype Value =
    | Null
    | Bool(b: bool)
    | Int(n: int)
    | Float(repr: string)      // the shortest decimal that reads back to the same double
    | Str(s: string)
    | HexStr(h: Hash)          // a string that is the hexadecimal form of a digest
    | Arr(items: seq<Value>)
    | Obj(fields: seq<Field>)

  datatype Field = Field(key: string, val: Value)

  // ----- dicts -----

  function Keys(fs: seq<Field>): (r: seq<string>)
    ensures |r| == |fs| && forall i :: 0 <= i < |fs| ==> r[i] == fs[i].key
  {
    seq(|fs|, i requires 0 <= i < |fs| => fs[i].key)
  }

  ghost predicate UniqueKeys(fs: seq<Field>) {
    forall i, j :: 0 <= i < j < |fs| ==> fs[i].key != fs[j].key
  }

  function Index(fs: seq<Field>, k: string): (r: nat)
    ensures r <= |fs|
    ensures r < |fs| ==> fs[r].key == k
    ensures forall i :: 0 <= i < r ==> fs[i].key != k
  {
    if fs == [] || fs[0].key == k then 0 else 1 + Index(fs[1..], k)
  }

  // value.get(key): None when the key is absent.
  function Get(v: Value, k: string): Option<Value> {
    if v.Obj? && Index(v.fields, k) < |v.fields|
    then Some(v.fields[Index(v.fields, k)].val)
    else None
  }

  function GetOr(v: Value, k: string, default: Value): Value {
    match Get(v, k)
    case Some(x) => x
    case None => default
  }

  // value[key] = x: overwrites in place or appends.
  function Put(fs: seq<Field>, k: string, x: Value): seq<Field> {
    var i := Index(fs, k);
    if i < |fs| then fs[i := Field(k, x)] else fs + [Field(k, x)]
  }

  // {k: v for k, v in value.items() if k != key}
  function Drop(fs: seq<Field>, k: string): (r: seq<Field>)
    ensures forall f :: f in r <==> f in fs && f.key != k
  {
    if fs == [] then []
    else if fs[0].key == k then Drop(fs[1..], k)
    else [fs[0]] + Drop(fs[1..], k)
  }

  lemma GetAt(fs: seq<Field>, i: nat)
    requires UniqueKeys(fs) && i < |fs|
    ensures Index(fs, fs[i].key) == i
    ensures Get(Obj(fs), fs[i].key) == Some(fs[i].val)
  {
  }

  lemma GetPut(fs: seq<Field>, k: string, x: Value, q: string)
    ensures Get(Obj(Put(fs, k, x)), q) == if q == k then Some(x) else Get(Obj(fs), q)
  {
    var i := Index(fs, k);
    var r := Put(fs, k, x);
    var j := Index(r, q);
    var j0 := Index(fs, q);
    if q == k {
      assert i < |r| && r[i].key == k;
      assert j <= i;
      assert forall m :: 0 <= m < i ==> r[m].key != k;
    } else {
      if j0 < |fs| { assert r[j0].key == q; assert j <= j0; }
      if j < |r| { assert r[j].key == q; assert j < |fs| && fs[j].key == q; assert j0 <= j; }
    }
  }

  lemma PutUnique(fs: seq<Field>, k: string, x: Value)
    requires UniqueKeys(fs)
    ensures UniqueKeys(Put(fs, k, x))
  {
  }

  lemma {:induction false} DropUnique(fs: seq<Field>, k: string)
    requires UniqueKeys(fs)
    ensures UniqueKeys(Drop(fs, k))
  {
    if fs != [] {
      DropUnique(fs[1..], k);
      assert forall f :: f in Drop(fs[1..], k) ==> f in fs[1..];
    }
  }

  lemma GetIn(v: Value, k: string)
    requires v.Obj?
    ensures Get(v, k).Some? ==> Field(k, Get(v, k).value) in v.fields
    ensures UniqueKeys(v.fields) ==> forall x :: Field(k, x) in v.fields ==> Get(v, k) == Some(x)
  {
    var i := Index(v.fields, k);
    if i < |v.fields| { assert v.fields[i] == Field(k, v.fields[i].val); }
  }

  lemma GetDrop(fs: seq<Field>, k: string, q: string)
    requires UniqueKeys(fs)
    ensures Get(Obj(Drop(fs, k)), q) == if q == k then None else Get(Obj(fs), q)
  {
    DropUnique(fs, k);
    GetIn(Obj(fs), q);
    GetIn(Obj(Drop(fs, k)), q);
  }

  // ----- well-formedness: what every value built by json.loads satisfies -----

  predicate NumberChar(c: char) {
    '0' <= c <= '9' || c == '-' || c == '+' || c == '.' || c == 'e' || c == 'E'
  }

  predicate FloatRepr(s: string) {
    && s != []
    && ('0' <= s[0] <= '9' || s[0] == '-')
    && (forall i :: 0 <= i < |s| ==> NumberChar(s[i]))
    && ('.' in s || 'e' in s)
  }

  ghost predicate WellFormed(v: Value) {
    match v
    case Float(r) => FloatRepr(r)
    case Arr(xs) => forall i :: 0 <= i < |xs| ==> WellFormed(xs[i])
    case Obj(fs) => UniqueKeys(fs) && forall i :: 0 <= i < |fs| ==> WellFormed(fs[i].val)
    case _ => true
  }

  lemma GetWellFormed(v: Value, k: string)
    requires WellFormed(v)
    ensures Get(v, k).Some? ==> WellFormed(Get(v, k).value)
  {
  }

  // ----- Python's view of a value -----

  // bool(value)
  predicate Truthy(v: Value) {
    match v
    case Null => false
    case Bool(b) => b
    case Int(n) => n != 0
    case Float(r) => r != "0.0" && r != "-0.0"
    case Str(s) => s != ""
    case HexStr(_) => true
    case Arr(xs) => xs != []
    case Obj(fs) => fs != []
  }

  // `value or {}`
  function OrEmpty(v: Value): Value {
    if Truthy(v) then v else Obj([])
  }

  // isinstance(value, str)
  predicate IsString(v: Value) {
    v.Str? || v.HexStr?
  }

  predicate IsSpace(c: char) {
    || '\t' <= c <= '\r' || c == ' '
    || 0x1c <= c as int <= 0x1f || c as int == 0x85 || c as int == 0xa0
    || c as int == 0x1680 || 0x2000 <= c as int <= 0x200a
    || c as int == 0x2028 || c as int == 0x2029 || c as int == 0x202f
    || c as int == 0x205f || c as int == 0x3000
  }

  // not str.strip()
  predicate Blank(s: string) {
    forall i :: 0 <= i < |s| ==> IsSpace(s[i])
  }

  function Digit(n: nat): char
    requires n < 10
  {
    "0123456789"[n]
  }

  function Decimal(n: nat): (s: string)
    ensures s != [] && forall i :: 0 <= i < |s| ==> '0' <= s[i] <= '9'
  {
    if n < 10 then [Digit(n)] else Decimal(n / 10) + [Digit(n % 10)]
  }

  function IntText(n: int): (s: string)
    ensures s != [] && ('0' <= s[0] <= '9' || s[0] == '-')
    ensures forall i :: 0 <= i < |s| ==> '0' <= s[i] <= '9' || s[i] == '-'
  {
    if n < 0 then "-" + Decimal(-n) else Decimal(n)
  }

  // str(value); containers and digests get a fixed nonblank stand-in.
  function PyStr(v: Value): string {
    match v
    case Null => "None"
    case Bool(b) => if b then "True" else "False"
    case Int(n) => IntText(n)
    case Float(r) => r
    case Str(s) => s
    case HexStr(_) => "<digest>"
    case Arr(_) => "[...]"
    case Obj(_) => "{...}"
  }

  lemma PrintedScalars()
    ensures PyStr(Null) == "None" && PyStr(Bool(true)) == "True" && PyStr(Bool(false)) == "False" && PyStr(Int(-7)) == "-7"
  {
    assert Decimal(7) == "7" && "-" + "7" == "-7";
  }

  // str.lower() on ASCII letters, and on the one other character that lowers to
  // one of them: the Kelvin sign.
  function LowerChar(c: char): char {
    if 'A' <= c <= 'Z' then (c as int - 'A' as int + 'a' as int) as char
    else if c as int == 0x212a then 'k'
    else c
  }

  function Lower(s: string): (r: string)
    ensures |r| == |s| && forall i :: 0 <= i < |s| ==> r[i] == LowerChar(s[i])
  {
    seq(|s|, i requires 0 <= i < |s| => LowerChar(s[i]))
  }

  // str.strip()
  function Strip(s: string): string {
    if s != "" && IsSpace(s[0]) then Strip(s[1..])
    else if s != "" && IsSpace(s[|s| - 1]) then Strip(s[..|s| - 1])
    else s
  }
}
