// The recursive-descent parser of backend/include/common/json.h.
// The functions read from the text that is left and return what is left after
// them; the class Parser is the cursor version, proved against them.
module JsonParser {
  import opened Collections
  import opened JsonValue

  // A value and the text left behind it.
  datatype Parsed = Parsed(val: Value, rest: Bytes)
  datatype ParsedString = ParsedString(s: Bytes, rest: Bytes)

  // std::stod on a scanned literal; None where it throws.
  type Stod = Bytes -> Option<real>

  predicate IsSpace(c: Byte) {
    c == 32 || 9 <= c <= 13
  }

  predicate IsDigit(c: Byte) {
    48 <= c <= 57
  }

  predicate IsHex(c: Byte) {
    IsDigit(c) || 65 <= c <= 70 || 97 <= c <= 102
  }

  function Peek(s: Bytes): Byte {
    if s == [] then 0 else s[0]
  }

  function Drop1(s: Bytes): (r: Bytes)
    ensures |r| == if s == [] then 0 else |s| - 1
  {
    if s == [] then s else s[1..]
  }

  function SkipSpace(s: Bytes): (r: Bytes)
    ensures |r| <= |s|
    ensures r == [] || !IsSpace(r[0])
  {
    if s != [] && IsSpace(s[0]) then SkipSpace(s[1..]) else s
  }

  function AfterDigits(s: Bytes): (r: Bytes)
    ensures |r| <= |s|
  {
    if s != [] && IsDigit(s[0]) then AfterDigits(s[1..]) else s
  }

  // ---------- numbers ----------

  datatype Scan = Scan(isDouble: bool, rest: Bytes)

  function ScanFraction(s: Bytes): (r: Scan)
    ensures |r.rest| <= |s|
  {
    if Peek(s) == DOT then Scan(true, AfterDigits(Drop1(s))) else Scan(false, s)
  }

  function ScanExponent(n: Scan): (r: Scan)
    ensures |r.rest| <= |n.rest|
  {
    if Peek(n.rest) == LOWER_E || Peek(n.rest) == UPPER_E then
      var t := Drop1(n.rest);
      Scan(true, AfterDigits(if Peek(t) == PLUS || Peek(t) == MINUS then Drop1(t) else t))
    else n
  }

  function ScanNumber(s: Bytes): (r: Scan)
    ensures |r.rest| <= |s|
  {
    var t := AfterDigits(if Peek(s) == MINUS then Drop1(s) else s);
    ScanExponent(ScanFraction(t))
  }

  function DecimalValue(ds: Bytes): int {
    if ds == [] then 0 else 10 * DecimalValue(ds[..|ds| - 1]) + (ds[|ds| - 1] as int - 48)
  }

  // std::stoll on an optional minus sign and digits; None where it throws.
  function Stoll(num: Bytes): Option<int> {
    var negative := Peek(num) == MINUS;
    var ds := if negative then Drop1(num) else num;
    if ds == [] then None
    else
      var n := if negative then -DecimalValue(ds) else DecimalValue(ds);
      if INT64_MIN <= n <= INT64_MAX then Some(n) else None
  }

  function NumberValue(num: Bytes, isDouble: bool, stod: Stod): Value {
    if isDouble then
      match stod(num) { case Some(d) => Double(d) case None => Null }
    else
      match Stoll(num) { case Some(i) => Int(i) case None => Null }
  }

  function ReadNumber(s: Bytes, stod: Stod): (p: Parsed)
    ensures |p.rest| <= |s|
  {
    var n := ScanNumber(s);
    Parsed(NumberValue(s[..|s| - |n.rest|], n.isDouble, stod), n.rest)
  }

  // ---------- strings ----------

  function HexNibble(c: Byte): int
    requires IsHex(c)
  {
    if IsDigit(c) then c - 48 else if c <= 70 then c - 55 else c - 87
  }

  function LeadingHex(s: Bytes, acc: int): int {
    if s != [] && IsHex(s[0]) then LeadingHex(s[1..], 16 * acc + HexNibble(s[0])) else acc
  }

  // std::stoi(hex, nullptr, 16): blanks, a sign and an 0x prefix may come first;
  // None where it throws.
  function StoiHex(hex: Bytes): Option<int> {
    var t := SkipSpace(hex);
    var negative := Peek(t) == MINUS;
    var u := if negative || Peek(t) == PLUS then Drop1(t) else t;
    var w := if |u| >= 3 && u[0] == 48 && (u[1] == 120 || u[1] == 88) && IsHex(u[2]) then u[2..] else u;
    if w == [] || !IsHex(w[0]) then None
    else Some(if negative then -LeadingHex(w, 0) else LeadingHex(w, 0))
  }

  // The bytes appended for a code point; static_cast<char> keeps the low eight bits.
  function Utf8(cp: int): Bytes {
    if cp < 0x80 then [cp % 256]
    else if cp < 0x800 then [0xC0 + cp / 64 % 32, 0x80 + cp % 64]
    else [0xE0 + cp / 4096 % 16, 0x80 + cp / 64 % 64, 0x80 + cp % 64]
  }

  function CodePoint(hex: Bytes): Bytes {
    match StoiHex(hex) { case Some(cp) => Utf8(cp) case None => [] }
  }

  function Unescape(esc: Byte): Byte {
    if esc == LOWER_N then 10
    else if esc == LOWER_R then 13
    else if esc == LOWER_T then 9
    else if esc == LOWER_B then 8
    else if esc == LOWER_F then 12
    else esc
  }

  // s is the text behind a backslash.
  function ReadEscape(s: Bytes): (p: ParsedString)
    ensures |p.rest| <= |s|
  {
    var r := Drop1(s);
    if Peek(s) != LOWER_U then ParsedString([Unescape(Peek(s))], r)
    else if |r| >= 4 then ParsedString(CodePoint(r[..4]), r[4..])
    else ParsedString([], r)
  }

  function StringLoop(s: Bytes, acc: Bytes): (p: ParsedString)
    ensures |p.rest| <= |s|
    decreases |s|
  {
    if s == [] then ParsedString(acc, s)
    else if s[0] == QUOTE then ParsedString(acc, s[1..])
    else if s[0] == BACKSLASH then
      var e := ReadEscape(s[1..]);
      StringLoop(e.rest, acc + e.s)
    else StringLoop(s[1..], acc + [s[0]])
  }

  // The opening byte is dropped unread, whatever it is.
  function ReadString(s: Bytes): (p: ParsedString)
    ensures |p.rest| <= |s|
  {
    StringLoop(Drop1(s), [])
  }

  // ---------- values ----------

  predicate StartsWith(s: Bytes, word: Bytes) {
    |word| <= |s| && s[..|word|] == word
  }

  function ReadBool(s: Bytes): (p: Parsed)
    ensures |p.rest| <= |s|
  {
    if StartsWith(s, TRUE_TEXT) then Parsed(Bool(true), s[4..])
    else if StartsWith(s, FALSE_TEXT) then Parsed(Bool(false), s[5..])
    else Parsed(Null, s)
  }

  function ReadNull(s: Bytes): (p: Parsed)
    ensures |p.rest| <= |s|
  {
    Parsed(Null, if StartsWith(s, NULL_TEXT) then s[4..] else s)
  }

  // obj[key] = val on the ordered map.
  function Insert(fs: seq<Field>, key: Bytes, val: Value): seq<Field> {
    if fs == [] then [Field(key, val)]
    else if key == fs[0].key then [Field(key, val)] + fs[1..]
    else if KeyLess(key, fs[0].key) then [Field(key, val)] + fs
    else [fs[0]] + Insert(fs[1..], key, val)
  }

  function ReadValue(s: Bytes, stod: Stod): (p: Parsed)
    ensures |p.rest| <= |s|
    decreases |s|, 1
  {
    var t := SkipSpace(s);
    var c := Peek(t);
    if c == LBRACE then ReadObject(t, stod)
    else if c == LBRACKET then ReadArray(t, stod)
    else if c == QUOTE then (var p := ReadString(t); Parsed(Str(p.s), p.rest))
    else if c == LOWER_T || c == LOWER_F then ReadBool(t)
    else if c == LOWER_N then ReadNull(t)
    else if c == MINUS || IsDigit(c) then ReadNumber(t, stod)
    else Parsed(Null, t)
  }

  function ReadArray(s: Bytes, stod: Stod): (p: Parsed)
    requires s != []
    ensures |p.rest| <= |s| && p.val.Arr?
    decreases |s|, 0
  {
    var t := SkipSpace(Drop1(s));
    if Peek(t) == RBRACKET then Parsed(Arr([]), Drop1(t)) else ArrayLoop(t, [], stod)
  }

  function ArrayLoop(s: Bytes, acc: seq<Value>, stod: Stod): (p: Parsed)
    ensures |p.rest| <= |s| && p.val.Arr?
    decreases |s|, 2
  {
    var p := ReadValue(SkipSpace(s), stod);
    var t := SkipSpace(p.rest);
    if Peek(t) == COMMA then ArrayLoop(Drop1(t), acc + [p.val], stod)
    else Parsed(Arr(acc + [p.val]), Drop1(t))
  }

  function ReadObject(s: Bytes, stod: Stod): (p: Parsed)
    requires s != []
    ensures |p.rest| <= |s| && p.val.Obj?
    decreases |s|, 0
  {
    var t := SkipSpace(Drop1(s));
    if Peek(t) == RBRACE then Parsed(Obj([]), Drop1(t)) else ObjectLoop(t, [], stod)
  }

  function ObjectLoop(s: Bytes, acc: seq<Field>, stod: Stod): (p: Parsed)
    ensures |p.rest| <= |s| && p.val.Obj?
    decreases |s|, 2
  {
    var k := ReadString(SkipSpace(s));
    var t := SkipSpace(k.rest);
    if Peek(t) != COLON then Parsed(Obj(acc), Drop1(t))
    else
      var p := ReadValue(SkipSpace(Drop1(t)), stod);
      var u := SkipSpace(p.rest);
      var acc' := Insert(acc, k.s, p.val);
      if Peek(u) == COMMA then ObjectLoop(Drop1(u), acc', stod)
      else Parsed(Obj(acc'), Drop1(u))
  }

  // json::parse and where its cursor stops.
  function Read(s: Bytes, stod: Stod): Parsed {
    ReadValue(SkipSpace(s), stod)
  }

  // ---------- the cursor parser ----------

  class Parser {
    const input: Bytes
    const stod: Stod
    var pos: nat

    ghost predicate Valid()
      reads this
    {
      pos <= |input|
    }

    ghost function Rest(): Bytes
      requires Valid()
      reads this
    {
      input[pos..]
    }

    constructor (input: Bytes, stod: Stod)
      ensures Valid() && this.input == input && this.stod == stod && pos == 0
    {
      this.input := input;
      this.stod := stod;
      pos := 0;
    }

    method SkipWs()
      requires Valid()
      modifies this
      ensures Valid() && pos >= old(pos) && Rest() == SkipSpace(old(Rest()))
    {
      while pos < |input| && IsSpace(input[pos])
        invariant Valid() && pos >= old(pos)
        invariant SkipSpace(Rest()) == SkipSpace(old(Rest()))
      {
        assert Rest()[1..] == input[pos + 1..];
        pos := pos + 1;
      }
    }

    method SkipDigits()
      requires Valid()
      modifies this
      ensures Valid() && pos >= old(pos) && Rest() == AfterDigits(old(Rest()))
    {
      while pos < |input| && IsDigit(input[pos])
        invariant Valid() && pos >= old(pos)
        invariant AfterDigits(Rest()) == AfterDigits(old(Rest()))
      {
        assert Rest()[1..] == input[pos + 1..];
        pos := pos + 1;
      }
    }

    method PeekByte() returns (c: Byte)
      requires Valid()
      ensures c == Peek(Rest())
    {
      c := if pos < |input| then input[pos] else 0;
    }

    method Get() returns (c: Byte)
      requires Valid()
      modifies this
      ensures Valid() && c == Peek(old(Rest())) && Rest() == Drop1(old(Rest()))
      ensures pos == if old(pos) < |input| then old(pos) + 1 else old(pos)
    {
      if pos < |input| {
        c := input[pos];
        pos := pos + 1;
      } else {
        c := 0;
      }
    }

    method ParseValue() returns (v: Value)
      requires Valid()
      modifies this
      ensures Valid() && pos >= old(pos)
      ensures Parsed(v, Rest()) == ReadValue(old(Rest()), stod)
      decreases |input| - pos, 1
    {
      SkipWs();
      var c := PeekByte();
      if c == LBRACE {
        v := ParseObject();
      } else if c == LBRACKET {
        v := ParseArray();
      } else if c == QUOTE {
        var s := ParseString();
        v := Str(s);
      } else if c == LOWER_T || c == LOWER_F {
        v := ParseBool();
      } else if c == LOWER_N {
        v := ParseNull();
      } else if c == MINUS || IsDigit(c) {
        v := ParseNumber();
      } else {
        v := Null;
      }
    }

    method ParseObject() returns (v: Value)
      requires Valid() && Rest() != []
      modifies this
      ensures Valid() && pos >= old(pos)
      ensures Parsed(v, Rest()) == ReadObject(old(Rest()), stod)
      decreases |input| - pos, 0
    {
      var obj: seq<Field> := [];
      var c := Get();
      SkipWs();
      c := PeekByte();
      if c == RBRACE {
        c := Get();
        return Obj(obj);
      }
      ghost var start := Rest();
      var more := true;
      while more
        invariant Valid() && pos > old(pos)
        invariant more ==> ObjectLoop(Rest(), obj, stod) == ObjectLoop(start, [], stod)
        invariant !more ==> Parsed(Obj(obj), Rest()) == ObjectLoop(start, [], stod)
        decreases more, |input| - pos
      {
        SkipWs();
        var key := ParseString();
        SkipWs();
        c := Get();
        if c != COLON {
          more := false;
        } else {
          SkipWs();
          var val := ParseValue();
          obj := Insert(obj, key, val);
          SkipWs();
          c := Get();
          more := c == COMMA;
        }
      }
      v := Obj(obj);
    }

    method ParseArray() returns (v: Value)
      requires Valid() && Rest() != []
      modifies this
      ensures Valid() && pos >= old(pos)
      ensures Parsed(v, Rest()) == ReadArray(old(Rest()), stod)
      decreases |input| - pos, 0
    {
      var arr: seq<Value> := [];
      var c := Get();
      SkipWs();
      c := PeekByte();
      if c == RBRACKET {
        c := Get();
        return Arr(arr);
      }
      ghost var start := Rest();
      var more := true;
      while more
        invariant Valid() && pos > old(pos)
        invariant more ==> ArrayLoop(Rest(), arr, stod) == ArrayLoop(start, [], stod)
        invariant !more ==> Parsed(Arr(arr), Rest()) == ArrayLoop(start, [], stod)
        decreases more, |input| - pos
      {
        SkipWs();
        var val := ParseValue();
        arr := arr + [val];
        SkipWs();
        c := Get();
        more := c == COMMA;
      }
      v := Arr(arr);
    }

    // What follows a backslash.
    method ParseEscape() returns (t: Bytes)
      requires Valid()
      modifies this
      ensures Valid() && pos >= old(pos)
      ensures ParsedString(t, Rest()) == ReadEscape(old(Rest()))
    {
      ghost var r := Rest();
      var esc := Get();
      if esc != LOWER_U {
        return [Unescape(esc)];
      }
      if pos + 4 <= |input| {
        var hex := input[pos..pos + 4];
        assert hex == Rest()[..4];
        pos := pos + 4;
        assert Rest() == Drop1(r)[4..];
        return CodePoint(hex);
      }
      return [];
    }

    method ParseString() returns (s: Bytes)
      requires Valid()
      modifies this
      ensures Valid() && pos >= old(pos)
      ensures ParsedString(s, Rest()) == ReadString(old(Rest()))
    {
      s := [];
      var c := Get();
      ghost var start := Rest();
      while pos < |input|
        invariant Valid() && pos >= old(pos)
        invariant StringLoop(Rest(), s) == StringLoop(start, [])
        decreases |input| - pos
      {
        c := Get();
        if c == QUOTE {
          return;
        }
        if c == BACKSLASH {
          var t := ParseEscape();
          s := s + t;
        } else {
          s := s + [c];
        }
      }
    }

    method ParseBool() returns (v: Value)
      requires Valid()
      modifies this
      ensures Valid() && pos >= old(pos)
      ensures Parsed(v, Rest()) == ReadBool(old(Rest()))
    {
      if StartsWith(input[pos..], TRUE_TEXT) {
        pos := pos + 4;
        return Bool(true);
      }
      if StartsWith(input[pos..], FALSE_TEXT) {
        pos := pos + 5;
        return Bool(false);
      }
      v := Null;
    }

    method ParseNull() returns (v: Value)
      requires Valid()
      modifies this
      ensures Valid() && pos >= old(pos)
      ensures Parsed(v, Rest()) == ReadNull(old(Rest()))
    {
      if StartsWith(input[pos..], NULL_TEXT) { pos := pos + 4; }
      v := Null;
    }

    method SkipFraction() returns (isDouble: bool)
      requires Valid()
      modifies this
      ensures Valid() && pos >= old(pos) && Scan(isDouble, Rest()) == ScanFraction(old(Rest()))
    {
      isDouble := false;
      var c := PeekByte();
      if c == DOT {
        isDouble := true;
        c := Get();
        SkipDigits();
      }
    }

    method SkipExponent(fraction: bool) returns (isDouble: bool)
      requires Valid()
      modifies this
      ensures Valid() && pos >= old(pos)
      ensures Scan(isDouble, Rest()) == ScanExponent(Scan(fraction, old(Rest())))
    {
      isDouble := fraction;
      var c := PeekByte();
      if c == LOWER_E || c == UPPER_E {
        isDouble := true;
        c := Get();
        c := PeekByte();
        if c == PLUS || c == MINUS { c := Get(); }
        SkipDigits();
      }
    }

    method SkipNumber() returns (isDouble: bool)
      requires Valid()
      modifies this
      ensures Valid() && pos >= old(pos) && Scan(isDouble, Rest()) == ScanNumber(old(Rest()))
    {
      var c := PeekByte();
      if c == MINUS { c := Get(); }
      SkipDigits();
      isDouble := SkipFraction();
      isDouble := SkipExponent(isDouble);
    }

    method ParseNumber() returns (v: Value)
      requires Valid()
      modifies this
      ensures Valid() && pos >= old(pos)
      ensures Parsed(v, Rest()) == ReadNumber(old(Rest()), stod)
    {
      var start := pos;
      var isDouble := SkipNumber();
      var num := input[start..pos];
      assert num == old(Rest())[..|old(Rest())| - |Rest()|];
      v := NumberValue(num, isDouble, stod);
    }
  }

  method ParseText(s: Bytes, stod: Stod) returns (v: Value, pos: nat)
    ensures pos <= |s| && Parsed(v, s[pos..]) == Read(s, stod)
  {
    var parser := new Parser(s, stod);
    assert parser.Rest() == s;
    parser.SkipWs();
    v := parser.ParseValue();
    pos := parser.pos;
  }
}
