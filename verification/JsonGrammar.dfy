// JSON texts as data, in the terms of RFC 8259: what a text is made of, the
// tokens it is written with, and the value it stands for.
module JsonGrammar {
  import opened Collections
  import opened JsonValue
  import opened JsonParser

  // ---------- whitespace, section 2 ----------

  // Space, tab, line feed and carriage return, and the two more that isspace
  // accepts in the "C" locale.
  ghost predicate Blank(g: Bytes) {
    forall c :: c in g ==> c == 0x20 || 0x09 <= c <= 0x0D
  }

  ghost predicate AllBlank(gaps: seq<Bytes>) {
    forall g :: g in gaps ==> Blank(g)
  }

  // The tokens ts with gaps[i] written in front of ts[i].
  function Spaced(ts: seq<Bytes>, gaps: seq<Bytes>): Bytes
    requires |gaps| == |ts|
  {
    if ts == [] then [] else gaps[0] + ts[0] + Spaced(ts[1..], gaps[1..])
  }

  // ---------- numbers, section 6 ----------

  // mark is e or E, sign + or -.
  datatype Exponent = Exponent(mark: Byte, sign: Option<Byte>, digits: Bytes)

  datatype Numeral = Numeral(minus: bool, whole: Bytes, fraction: Option<Bytes>, exponent: Option<Exponent>)

  predicate AreDigits(ds: Bytes) {
    forall i :: 0 <= i < |ds| ==> 48 <= ds[i] <= 57
  }

  // Runs of digits of any length, none included.
  predicate Lexical(n: Numeral) {
    && AreDigits(n.whole) && (n.fraction.Some? ==> AreDigits(n.fraction.value))
    && (n.exponent.Some? ==>
          && AreDigits(n.exponent.value.digits) && (n.exponent.value.mark == 101 || n.exponent.value.mark == 69)
          && (n.exponent.value.sign.Some? ==> n.exponent.value.sign.value == 43 || n.exponent.value.sign.value == 45))
  }

  // Every run has a digit; zeros may come first.
  predicate LegalNumeral(n: Numeral) {
    && Lexical(n) && n.whole != [] && (n.fraction.Some? ==> n.fraction.value != [])
    && (n.exponent.Some? ==> n.exponent.value.digits != [])
  }

  predicate IsReal(n: Numeral) {
    n.fraction.Some? || n.exponent.Some?
  }

  function FractionText(f: Option<Bytes>): Bytes {
    match f { case None => [] case Some(ds) => [46] + ds }
  }

  function SignText(sign: Option<Byte>): Bytes {
    match sign { case None => [] case Some(c) => [c] }
  }

  function ExponentText(e: Option<Exponent>): Bytes {
    match e
    case None => []
    case Some(x) => [x.mark] + SignText(x.sign) + x.digits
  }

  function NumeralText(n: Numeral): Bytes {
    (if n.minus then [45] else []) + n.whole + FractionText(n.fraction) + ExponentText(n.exponent)
  }

  function Natural(ds: Bytes): nat
    requires AreDigits(ds)
  {
    if ds == [] then 0 else 10 * Natural(ds[..|ds| - 1]) + (ds[|ds| - 1] - 48)
  }

  // An integer of 64 bits, or what the library makes of a real; Null for what
  // neither holds.
  function NumberMeaning(n: Numeral, stod: Stod): Value
    requires Lexical(n)
  {
    if IsReal(n) then
      match stod(NumeralText(n)) { case Some(d) => Double(d) case None => Null }
    else
      var i: int := if n.minus then 0 - Natural(n.whole) else Natural(n.whole);
      if -0x8000_0000_0000_0000 <= i <= 0x7FFF_FFFF_FFFF_FFFF then Int(i) else Null
  }

  // ---------- strings, section 7 ----------

  // Bytes as they are, an escape of one character, or four hexadecimal digits.
  datatype Piece = Raw(bytes: Bytes) | Short(esc: Byte) | Escaped(hex: Bytes)

  predicate IsHexDigit(c: Byte) {
    48 <= c <= 57 || 65 <= c <= 70 || 97 <= c <= 102
  }

  function HexDigitValue(c: Byte): int
    requires IsHexDigit(c)
  {
    if c <= 57 then c - 48 else if c <= 70 then c - 65 + 10 else c - 97 + 10
  }

  // Digits of either case.
  predicate FourDigits(hex: Bytes) {
    |hex| == 4 && forall i :: 0 <= i < 4 ==> IsHexDigit(hex[i])
  }

  function Number(hex: Bytes): int
    requires FourDigits(hex)
  {
    ((HexDigitValue(hex[0]) * 16 + HexDigitValue(hex[1])) * 16 + HexDigitValue(hex[2])) * 16 + HexDigitValue(hex[3])
  }

  // Quotation mark, reverse solidus, solidus and the letters b, f, n, r, t.
  const SHORT: map<Byte, Byte> :=
    map[34 := 34, 92 := 92, 47 := 47, 98 := 8, 102 := 12, 110 := 10, 114 := 13, 116 := 9]

  predicate LegalPiece(p: Piece) {
    match p
    case Raw(b) => 34 !in b && 92 !in b
    case Short(esc) => esc in SHORT
    case Escaped(hex) => FourDigits(hex)
  }

  predicate LegalPieces(ps: seq<Piece>) {
    forall i :: 0 <= i < |ps| ==> LegalPiece(ps[i])
  }

  function PieceText(p: Piece): Bytes {
    match p
    case Raw(b) => b
    case Short(esc) => [92, esc]
    case Escaped(hex) => [92, 117] + hex
  }

  function PieceMeaning(p: Piece): Bytes
    requires LegalPiece(p)
  {
    match p
    case Raw(b) => b
    case Short(esc) => [SHORT[esc]]
    case Escaped(hex) => Utf8(Number(hex))
  }

  function Texts(ps: seq<Piece>): Bytes {
    if ps == [] then [] else PieceText(ps[0]) + Texts(ps[1..])
  }

  function Meanings(ps: seq<Piece>): Bytes
    requires LegalPieces(ps)
  {
    if ps == [] then [] else PieceMeaning(ps[0]) + Meanings(ps[1..])
  }

  function StringText(ps: seq<Piece>): Bytes {
    [34] + Texts(ps) + [34]
  }

  // ---------- values, sections 3 to 5 ----------

  datatype Tree =
    | TNull
    | TBool(b: bool)
    | TNumber(n: Numeral)
    | TString(ps: seq<Piece>)
    | TArray(items: seq<Tree>)
    | TObject(members: seq<Member>)

  datatype Member = Member(key: seq<Piece>, val: Tree)

  predicate Legal(t: Tree) {
    match t
    case TNumber(n) => LegalNumeral(n)
    case TString(ps) => LegalPieces(ps)
    case TArray(xs) => forall i :: 0 <= i < |xs| ==> Legal(xs[i])
    case TObject(ms) => forall i :: 0 <= i < |ms| ==> LegalPieces(ms[i].key) && Legal(ms[i].val)
    case _ => true
  }

  function TreeTokens(t: Tree): (ts: seq<Bytes>)
    ensures |ts| > 0
    decreases t, 1
  {
    match t
    case TNull => [[110, 117, 108, 108]]
    case TBool(b) => [if b then [116, 114, 117, 101] else [102, 97, 108, 115, 101]]
    case TNumber(n) => [NumeralText(n)]
    case TString(ps) => [StringText(ps)]
    case TArray(xs) => [[91]] + (ElementTokens(xs) + [[93]])
    case TObject(ms) => [[123]] + (MemberTokens(ms) + [[125]])
  }

  function ElementTokens(xs: seq<Tree>): seq<Bytes>
    decreases xs, 0
  {
    if xs == [] then []
    else TreeTokens(xs[0]) + if |xs| == 1 then [] else [[44]] + ElementTokens(xs[1..])
  }

  function MemberHead(m: Member): seq<Bytes>
    decreases m, 2
  {
    [StringText(m.key), [58]] + TreeTokens(m.val)
  }

  function MemberTokens(ms: seq<Member>): seq<Bytes>
    decreases ms, 0
  {
    if ms == [] then []
    else MemberHead(ms[0]) + if |ms| == 1 then [] else [[44]] + MemberTokens(ms[1..])
  }

  function Meaning(t: Tree, stod: Stod): Value
    requires Legal(t)
    decreases t, 1
  {
    match t
    case TNull => Null
    case TBool(b) => Bool(b)
    case TNumber(n) => NumberMeaning(n, stod)
    case TString(ps) => Str(Meanings(ps))
    case TArray(xs) => Arr(ItemMeanings(xs, stod))
    case TObject(ms) => Obj(Assigned([], ms, stod))
  }

  function ItemMeanings(xs: seq<Tree>, stod: Stod): (vs: seq<Value>)
    requires forall i :: 0 <= i < |xs| ==> Legal(xs[i])
    ensures |vs| == |xs| && forall i :: 0 <= i < |xs| ==> vs[i] == Meaning(xs[i], stod)
    decreases xs, 0
  {
    if xs == [] then [] else [Meaning(xs[0], stod)] + ItemMeanings(xs[1..], stod)
  }

  // The members assigned one after the other, so the last of equal names wins.
  function Assigned(fs: seq<Field>, ms: seq<Member>, stod: Stod): seq<Field>
    requires forall i :: 0 <= i < |ms| ==> LegalPieces(ms[i].key) && Legal(ms[i].val)
    decreases ms, 0
  {
    if ms == [] then fs
    else Assigned(Insert(fs, Meanings(ms[0].key), Meaning(ms[0].val, stod)), ms[1..], stod)
  }

  // ---------- names and their values ----------

  function Lookup(fs: seq<Field>, key: Bytes): Option<Value> {
    if fs == [] then None else if fs[0].key == key then Some(fs[0].val) else Lookup(fs[1..], key)
  }

  // The value of a name after the assignments: the last one given to it.
  function LastGiven(fs: seq<Field>, ms: seq<Member>, key: Bytes, stod: Stod): Option<Value>
    requires forall i :: 0 <= i < |ms| ==> LegalPieces(ms[i].key) && Legal(ms[i].val)
    decreases |ms|
  {
    if ms == [] then Lookup(fs, key)
    else
      var m := ms[|ms| - 1];
      if Meanings(m.key) == key then Some(Meaning(m.val, stod)) else LastGiven(fs, ms[..|ms| - 1], key, stod)
  }

  lemma {:induction false} InsertLookup(fs: seq<Field>, key: Bytes, val: Value, name: Bytes)
    ensures Lookup(Insert(fs, key, val), name) == if name == key then Some(val) else Lookup(fs, name)
  {
    if fs != [] {
      KeyLessTotal(key, fs[0].key);
      if key == fs[0].key {
        assert ([Field(key, val)] + fs[1..])[1..] == fs[1..];
      } else if KeyLess(key, fs[0].key) {
        assert ([Field(key, val)] + fs)[1..] == fs;
      } else {
        InsertLookup(fs[1..], key, val, name);
        assert ([fs[0]] + Insert(fs[1..], key, val))[1..] == Insert(fs[1..], key, val);
      }
    }
  }

  lemma {:induction false} AssignedLast(fs: seq<Field>, ms: seq<Member>, stod: Stod)
    requires ms != [] && forall i :: 0 <= i < |ms| ==> LegalPieces(ms[i].key) && Legal(ms[i].val)
    ensures var m := ms[|ms| - 1];
            Assigned(fs, ms, stod)
            == Insert(Assigned(fs, ms[..|ms| - 1], stod), Meanings(m.key), Meaning(m.val, stod))
    decreases |ms|
  {
    if |ms| > 1 {
      assert ms[1..][|ms| - 2] == ms[|ms| - 1] && ms[..|ms| - 1][0] == ms[0];
      AssignedLast(Insert(fs, Meanings(ms[0].key), Meaning(ms[0].val, stod)), ms[1..], stod);
      assert ms[1..][..|ms| - 2] == ms[..|ms| - 1][1..];
    }
  }

  // An object holds for every name the last value its text gives to it.
  lemma {:induction false} LastNameWins(fs: seq<Field>, ms: seq<Member>, key: Bytes, stod: Stod)
    requires forall i :: 0 <= i < |ms| ==> LegalPieces(ms[i].key) && Legal(ms[i].val)
    ensures Lookup(Assigned(fs, ms, stod), key) == LastGiven(fs, ms, key, stod)
    decreases |ms|
  {
    if ms != [] {
      var m, before := ms[|ms| - 1], ms[..|ms| - 1];
      LastNameWins(fs, before, key, stod);
      AssignedLast(fs, ms, stod);
      InsertLookup(Assigned(fs, before, stod), Meanings(m.key), Meaning(m.val, stod), key);
    }
  }
}
