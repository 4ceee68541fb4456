// The value tree of backend/include/common/json.h and its printer.
// Text is a sequence of bytes; an object is the ordered map the source keeps,
// held as its list of entries in increasing key order.
module JsonValue {

  type Byte = b: int | 0 <= b < 256
  type Bytes = seq<Byte>

  datatype Value =
    | Null
    | Bool(b: bool)
    | Int(i: int)
    | Double(d: real)
    | Str(s: Bytes)
    | Arr(items: seq<Value>)
    | Obj(fields: seq<Field>)

  datatype Field = Field(key: Bytes, val: Value)

  const QUOTE: Byte := 34
  const PLUS: Byte := 43
  const COMMA: Byte := 44
  const MINUS: Byte := 45
  const DOT: Byte := 46
  const COLON: Byte := 58
  const UPPER_E: Byte := 69
  const LBRACKET: Byte := 91
  const BACKSLASH: Byte := 92
  const RBRACKET: Byte := 93
  const LOWER_B: Byte := 98
  const LOWER_E: Byte := 101
  const LOWER_F: Byte := 102
  const LOWER_N: Byte := 110
  const LOWER_R: Byte := 114
  const LOWER_T: Byte := 116
  const LOWER_U: Byte := 117
  const LBRACE: Byte := 123
  const RBRACE: Byte := 125

  const NULL_TEXT: Bytes := [110, 117, 108, 108]
  const TRUE_TEXT: Bytes := [116, 114, 117, 101]
  const FALSE_TEXT: Bytes := [102, 97, 108, 115, 101]

  const INT64_MIN: int := -0x8000_0000_0000_0000
  const INT64_MAX: int := 0x7FFF_FFFF_FFFF_FFFF

  // ---------- key order of std::map<std::string, Value> ----------

  predicate KeyLess(a: Bytes, b: Bytes) {
    if b == [] then false
    else if a == [] then true
    else a[0] < b[0] || (a[0] == b[0] && KeyLess(a[1..], b[1..]))
  }

  ghost predicate Sorted(fs: seq<Field>) {
    forall i, j :: 0 <= i < j < |fs| ==> KeyLess(fs[i].key, fs[j].key)
  }

  // What the class keeps of itself: 64-bit integers, keys in map order.
  ghost predicate WellFormed(v: Value) {
    match v
    case Int(i) => INT64_MIN <= i <= INT64_MAX
    case Arr(xs) => forall x :: x in xs ==> WellFormed(x)
    case Obj(fs) => Sorted(fs) && forall f :: f in fs ==> WellFormed(f.val)
    case _ => true
  }

  ghost predicate NoDouble(v: Value) {
    match v
    case Double(_) => false
    case Arr(xs) => forall x :: x in xs ==> NoDouble(x)
    case Obj(fs) => forall f :: f in fs ==> NoDouble(f.val)
    case _ => true
  }

  lemma {:induction false} KeyLessTransitive(a: Bytes, b: Bytes, c: Bytes)
    requires KeyLess(a, b) && KeyLess(b, c)
    ensures KeyLess(a, c)
    decreases |a|
  {
    if a != [] && a[0] == b[0] == c[0] {
      KeyLessTransitive(a[1..], b[1..], c[1..]);
    }
  }

  lemma {:induction false} KeyLessTotal(a: Bytes, b: Bytes)
    ensures KeyLess(a, b) || KeyLess(b, a) || a == b
    ensures !(KeyLess(a, b) && KeyLess(b, a))
    ensures !KeyLess(a, a)
    decreases |a|
  {
    if a != [] {
      KeyLessTotal(a[1..], a[1..]);
      if b != [] && a[0] == b[0] {
        KeyLessTotal(a[1..], b[1..]);
        assert a == [a[0]] + a[1..] && b == [b[0]] + b[1..];
      }
    }
  }

  // Equal up to k, where a ends or has the smaller byte.
  predicate LessAt(a: Bytes, b: Bytes, k: nat) {
    k <= |a| && k < |b| && a[..k] == b[..k] && (k == |a| || a[k] < b[k])
  }

  // The order of std::string: the first difference decides, and a prefix is
  // smaller than what it begins.
  lemma {:induction false} KeyLessIs(a: Bytes, b: Bytes)
    ensures KeyLess(a, b) <==> exists k: nat :: LessAt(a, b, k)
    decreases |a|
  {
    if a == [] {
      assert b != [] ==> LessAt(a, b, 0);
    } else if b != [] {
      if a[0] < b[0] { assert LessAt(a, b, 0); }
      if a[0] == b[0] {
        KeyLessIs(a[1..], b[1..]);
        if k: nat :| LessAt(a[1..], b[1..], k) { LessShifted(a, b, k); }
      }
      if k: nat :| LessAt(a, b, k) { LessUnshifted(a, b, k); }
    }
  }

  lemma LessShifted(a: Bytes, b: Bytes, k: nat)
    requires a != [] && b != [] && a[0] == b[0] && LessAt(a[1..], b[1..], k)
    ensures LessAt(a, b, k + 1)
  {
    assert a[..k + 1] == [a[0]] + a[1..][..k] && b[..k + 1] == [b[0]] + b[1..][..k];
  }

  lemma LessUnshifted(a: Bytes, b: Bytes, k: nat)
    requires a != [] && b != [] && LessAt(a, b, k)
    ensures k == 0 ==> a[0] < b[0]
    ensures k > 0 ==> a[0] == b[0] && LessAt(a[1..], b[1..], k - 1)
  {
    if k > 0 {
      assert a[..k][0] == b[..k][0];
      assert a[1..][..k - 1] == a[..k][1..] && b[1..][..k - 1] == b[..k][1..];
    }
  }

  // ---------- the printed text, token by token ----------

  function Digits(n: nat): (ds: Bytes)
    ensures |ds| > 0
  {
    if n < 10 then [48 + n] else Digits(n / 10) + [48 + n % 10]
  }

  function Decimal(i: int): Bytes {
    if i < 0 then [MINUS] + Digits(-i) else Digits(i)
  }

  function HexDigit(d: int): Byte
    requires 0 <= d < 16
  {
    if d < 10 then 48 + d else 87 + d
  }

  function EscapeByte(c: Byte): Bytes {
    if c == QUOTE then [BACKSLASH, QUOTE]
    else if c == BACKSLASH then [BACKSLASH, BACKSLASH]
    else if c == 10 then [BACKSLASH, LOWER_N]
    else if c == 13 then [BACKSLASH, LOWER_R]
    else if c == 9 then [BACKSLASH, LOWER_T]
    else if c == 8 then [BACKSLASH, LOWER_B]
    else if c == 12 then [BACKSLASH, LOWER_F]
    else if c < 0x20 then [BACKSLASH, LOWER_U, 48, 48, HexDigit(c / 16), HexDigit(c % 16)]
    else [c]
  }

  function EscapeBody(s: Bytes): Bytes {
    if s == [] then [] else EscapeByte(s[0]) + EscapeBody(s[1..])
  }

  function Quoted(s: Bytes): Bytes {
    [QUOTE] + EscapeBody(s) + [QUOTE]
  }

  // show stands for the stream's 15-digit rendering of a double.
  function Tokens(v: Value, show: real -> Bytes): (ts: seq<Bytes>)
    ensures |ts| > 0
    decreases v, 1
  {
    match v
    case Null => [NULL_TEXT]
    case Bool(b) => [if b then TRUE_TEXT else FALSE_TEXT]
    case Int(i) => [Decimal(i)]
    case Double(d) => [show(d)]
    case Str(s) => [Quoted(s)]
    case Arr(xs) => [[LBRACKET]] + ItemTokens(xs, true, show) + [[RBRACKET]]
    case Obj(fs) => [[LBRACE]] + FieldTokens(fs, true, show) + [[RBRACE]]
  }

  function ItemTokens(xs: seq<Value>, first: bool, show: real -> Bytes): seq<Bytes>
    decreases xs, 0
  {
    if xs == [] then []
    else (if first then [] else [[COMMA]]) + Tokens(xs[0], show) + ItemTokens(xs[1..], false, show)
  }

  function FieldTokens(fs: seq<Field>, first: bool, show: real -> Bytes): seq<Bytes>
    decreases fs, 0
  {
    if fs == [] then []
    else (if first then [] else [[COMMA]])
         + ([Quoted(fs[0].key), [COLON]] + Tokens(fs[0].val, show))
         + FieldTokens(fs[1..], false, show)
  }

  function Concat(ts: seq<Bytes>): Bytes {
    if ts == [] then [] else ts[0] + Concat(ts[1..])
  }

  lemma {:induction false} ConcatAppend(a: seq<Bytes>, b: seq<Bytes>)
    ensures Concat(a + b) == Concat(a) + Concat(b)
  {
    if a == [] {
      assert a + b == b;
    } else {
      ConcatAppend(a[1..], b);
      assert (a + b)[1..] == a[1..] + b;
      Assoc(a[0], Concat(a[1..]), Concat(b));
    }
  }

  lemma ConcatOne(t: Bytes)
    ensures Concat([t]) == t
  {
    assert [t][1..] == [];
  }

  function DumpText(v: Value, show: real -> Bytes): Bytes {
    Concat(Tokens(v, show))
  }

  function FieldText(f: Field, show: real -> Bytes): Bytes {
    Quoted(f.key) + [COLON] + DumpText(f.val, show)
  }

  // ---------- the printer, writing to a stream ----------

  class OutStream {
    var text: Bytes

    constructor ()
      ensures text == []
    {
      text := [];
    }

    method Write(t: Bytes)
      modifies this
      ensures text == old(text) + t
    {
      text := text + t;
    }
  }

  method EscapeString(os: OutStream, s: Bytes)
    modifies os
    ensures os.text == old(os.text) + Quoted(s)
  {
    os.Write([QUOTE]);
    var i := 0;
    while i < |s|
      invariant 0 <= i <= |s|
      invariant os.text + EscapeBody(s[i..]) == old(os.text) + [QUOTE] + EscapeBody(s)
    {
      EscapeBodyStep(s, i);
      var piece := EscapeByte(s[i]);
      Assoc(os.text, piece, EscapeBody(s[i + 1..]));
      os.Write(piece);
      i := i + 1;
    }
    assert s[i..] == [] && EscapeBody(s[i..]) == [];
    ghost var body := EscapeBody(s);
    assert os.text == old(os.text) + [QUOTE] + body;
    os.Write([QUOTE]);
    assert os.text == old(os.text) + ([QUOTE] + body + [QUOTE]);
  }

  lemma Assoc(a: Bytes, b: Bytes, c: Bytes)
    ensures a + (b + c) == a + b + c
  {}

  lemma Regroup(text: Bytes, sep: Bytes, piece: Bytes, tail: Bytes)
    ensures text + (sep + piece + tail) == text + sep + piece + tail
    ensures sep == [] ==> text + sep == text
  {}

  lemma EscapeBodyStep(s: Bytes, i: nat)
    requires i < |s|
    ensures EscapeBody(s[i..]) == EscapeByte(s[i]) + EscapeBody(s[i + 1..])
  {
    assert s[i..][1..] == s[i + 1..];
  }

  method DumpImpl(os: OutStream, v: Value, show: real -> Bytes)
    modifies os
    ensures os.text == old(os.text) + DumpText(v, show)
    decreases v
  {
    ghost var start := os.text;
    match v
    case Null => os.Write(NULL_TEXT); ConcatOne(NULL_TEXT);
    case Bool(b) =>
      os.Write(if b then TRUE_TEXT else FALSE_TEXT);
      ConcatOne(if b then TRUE_TEXT else FALSE_TEXT);
    case Int(i) => os.Write(Decimal(i)); ConcatOne(Decimal(i));
    case Double(d) => os.Write(show(d)); ConcatOne(show(d));
    case Str(s) => EscapeString(os, s); ConcatOne(Quoted(s));
    case Arr(xs) =>
      os.Write([LBRACKET]);
      DumpItems(os, xs, show);
      os.Write([RBRACKET]);
      Bracketed(start, LBRACKET, ItemTokens(xs, true, show), RBRACKET);
    case Obj(fs) =>
      os.Write([LBRACE]);
      DumpFields(os, fs, show);
      os.Write([RBRACE]);
      Bracketed(start, LBRACE, FieldTokens(fs, true, show), RBRACE);
  }

  method DumpItems(os: OutStream, xs: seq<Value>, show: real -> Bytes)
    modifies os
    ensures os.text == old(os.text) + Concat(ItemTokens(xs, true, show))
    decreases xs
  {
    var i := 0;
    assert xs[0..] == xs;
    while i < |xs|
      invariant 0 <= i <= |xs|
      invariant os.text + Concat(ItemTokens(xs[i..], i == 0, show))
             == old(os.text) + Concat(ItemTokens(xs, true, show))
    {
      ItemTokensStep(xs[i..], i == 0, show);
      assert xs[i..][1..] == xs[i + 1..];
      Regroup(os.text, if i == 0 then [] else [COMMA], DumpText(xs[i], show),
              Concat(ItemTokens(xs[i + 1..], false, show)));
      if i != 0 { os.Write([COMMA]); }
      DumpImpl(os, xs[i], show);
      i := i + 1;
    }
    assert xs[i..] == [];
  }

  method DumpField(os: OutStream, f: Field, show: real -> Bytes)
    modifies os
    ensures os.text == old(os.text) + FieldText(f, show)
    decreases f
  {
    EscapeString(os, f.key);
    os.Write([COLON]);
    DumpImpl(os, f.val, show);
  }

  method DumpFields(os: OutStream, fs: seq<Field>, show: real -> Bytes)
    modifies os
    ensures os.text == old(os.text) + Concat(FieldTokens(fs, true, show))
    decreases fs
  {
    var i, first := 0, true;
    assert fs[0..] == fs;
    while i < |fs|
      invariant 0 <= i <= |fs|
      invariant os.text + Concat(FieldTokens(fs[i..], first, show))
             == old(os.text) + Concat(FieldTokens(fs, true, show))
    {
      FieldTokensStep(fs[i..], first, show);
      assert fs[i..][1..] == fs[i + 1..];
      Regroup(os.text, if first then [] else [COMMA], FieldText(fs[i], show),
              Concat(FieldTokens(fs[i + 1..], false, show)));
      if !first { os.Write([COMMA]); }
      first := false;
      DumpField(os, fs[i], show);
      i := i + 1;
    }
    assert fs[i..] == [];
  }

  lemma Bracketed(before: Bytes, l: Byte, ts: seq<Bytes>, r: Byte)
    ensures before + [l] + Concat(ts) + [r] == before + Concat([[l]] + ts + [[r]])
  {
    ConcatAppend([[l]] + ts, [[r]]);
    ConcatAppend([[l]], ts);
    ConcatOne([l]);
    ConcatOne([r]);
  }

  lemma ItemTokensStep(xs: seq<Value>, first: bool, show: real -> Bytes)
    requires xs != []
    ensures Concat(ItemTokens(xs, first, show))
         == (if first then [] else [COMMA]) + DumpText(xs[0], show)
            + Concat(ItemTokens(xs[1..], false, show))
  {
    var sep := if first then [] else [[COMMA]];
    ConcatAppend(sep + Tokens(xs[0], show), ItemTokens(xs[1..], false, show));
    ConcatAppend(sep, Tokens(xs[0], show));
    ConcatOne([COMMA]);
  }

  lemma FieldTokensStep(fs: seq<Field>, first: bool, show: real -> Bytes)
    requires fs != []
    ensures Concat(FieldTokens(fs, first, show))
         == (if first then [] else [COMMA]) + FieldText(fs[0], show)
            + Concat(FieldTokens(fs[1..], false, show))
  {
    var sep := if first then [] else [[COMMA]];
    var head := [Quoted(fs[0].key), [COLON]];
    ConcatAppend(sep + (head + Tokens(fs[0].val, show)), FieldTokens(fs[1..], false, show));
    ConcatAppend(sep, head + Tokens(fs[0].val, show));
    ConcatAppend(head, Tokens(fs[0].val, show));
    assert head == [Quoted(fs[0].key)] + [[COLON]];
    ConcatAppend([Quoted(fs[0].key)], [[COLON]]);
    ConcatOne(Quoted(fs[0].key));
    ConcatOne([COLON]);
    ConcatOne([COMMA]);
  }

  method Dump(v: Value, show: real -> Bytes) returns (text: Bytes)
    ensures text == DumpText(v, show)
  {
    var os := new OutStream();
    DumpImpl(os, v, show);
    text := os.text;
  }
}
