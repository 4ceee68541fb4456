// The parser undoes the printer, with any whitespace between the tokens, and
// every parsed value can be printed and parsed again.
module JsonRoundTrip {
  import opened Collections
  import opened JsonValue
  import opened JsonParser
  import opened JsonGrammar
  import opened JsonReads

  function NoGaps(n: nat): (gaps: seq<Bytes>)
    ensures |gaps| == n && forall g :: g in gaps ==> g == []
  {
    if n == 0 then [] else [[]] + NoGaps(n - 1)
  }

  lemma {:induction false} ConcatIsSpaced(ts: seq<Bytes>)
    ensures Concat(ts) == Spaced(ts, NoGaps(|ts|))
  {
    if ts != [] {
      ConcatIsSpaced(ts[1..]);
      assert NoGaps(|ts|)[1..] == NoGaps(|ts| - 1);
    }
  }

  // ---------- strings ----------

  // The printer's choice for one byte.
  function PieceOf(c: Byte): Piece {
    if c == 34 || c == 92 then Short(c)
    else if c == 10 then Short(110)
    else if c == 13 then Short(114)
    else if c == 9 then Short(116)
    else if c == 8 then Short(98)
    else if c == 12 then Short(102)
    else if c < 0x20 then Escaped([48, 48, HexDigit(c / 16), HexDigit(c % 16)])
    else Raw([c])
  }

  function PiecesOf(s: Bytes): seq<Piece> {
    if s == [] then [] else [PieceOf(s[0])] + PiecesOf(s[1..])
  }

  lemma HexPair(c: Byte)
    requires c < 0x20
    ensures var hex := [48, 48, HexDigit(c / 16), HexDigit(c % 16)]; FourDigits(hex) && Number(hex) == c
  {
    var hex := [48, 48, HexDigit(c / 16), HexDigit(c % 16)];
    assert HexDigitValue(hex[2]) == c / 16 && HexDigitValue(hex[3]) == c % 16;
  }

  lemma PieceOfIs(c: Byte)
    ensures LegalPiece(PieceOf(c)) && PieceText(PieceOf(c)) == EscapeByte(c) && PieceMeaning(PieceOf(c)) == [c]
  {
    if c < 0x20 { HexPair(c); }
  }

  lemma {:induction false} PiecesOfIs(s: Bytes)
    ensures LegalPieces(PiecesOf(s)) && Texts(PiecesOf(s)) == EscapeBody(s) && Meanings(PiecesOf(s)) == s
    decreases |s|
  {
    if s != [] {
      PieceOfIs(s[0]);
      PiecesOfIs(s[1..]);
      assert PiecesOf(s)[1..] == PiecesOf(s[1..]);
      assert s == [s[0]] + s[1..];
    }
  }

  // A quoted string of any bytes reads back as itself.
  lemma QuotedReads(s: Bytes, rest: Bytes)
    ensures ReadString(Quoted(s) + rest) == ParsedString(s, rest)
  {
    PiecesOfIs(s);
    StringReads(PiecesOf(s), rest);
  }

  // ---------- numbers ----------

  lemma {:induction false} DigitsReads(n: nat)
    ensures AreDigits(Digits(n)) && Natural(Digits(n)) == n
  {
    var ds := Digits(n);
    if n < 10 {
      assert ds[..|ds| - 1] == [];
    } else {
      DigitsReads(n / 10);
      assert ds[..|ds| - 1] == Digits(n / 10);
    }
  }

  function NumeralOf(i: int): Numeral {
    Numeral(i < 0, Digits(if i < 0 then -i else i), None, None)
  }

  lemma NumeralOfIs(i: int, stod: Stod)
    requires INT64_MIN <= i <= INT64_MAX
    ensures LegalNumeral(NumeralOf(i)) && NumeralText(NumeralOf(i)) == Decimal(i)
    ensures NumberMeaning(NumeralOf(i), stod) == Int(i)
  {
    DigitsReads(if i < 0 then -i else i);
  }

  lemma DecimalReads(i: int, rest: Bytes, stod: Stod)
    requires INT64_MIN <= i <= INT64_MAX
    requires Stops(rest)
    ensures ReadNumber(Decimal(i) + rest, stod) == Parsed(Int(i), rest)
  {
    NumeralOfIs(i, stod);
    NumeralReads(NumeralOf(i), rest, stod);
  }

  // n is how d is printed, and the library reads it as d.
  ghost predicate ShownAs(d: real, n: Numeral, show: real -> Bytes, stod: Stod) {
    LegalNumeral(n) && IsReal(n) && NumeralText(n) == show(d) && stod(show(d)) == Some(d)
  }

  ghost predicate ReadsBack(d: real, show: real -> Bytes, stod: Stod) {
    exists n :: ShownAs(d, n, show, stod)
  }

  ghost predicate DoublesReadBack(v: Value, show: real -> Bytes, stod: Stod) {
    match v
    case Double(d) => ReadsBack(d, show, stod)
    case Arr(xs) => forall x :: x in xs ==> DoublesReadBack(x, show, stod)
    case Obj(fs) => forall f :: f in fs ==> DoublesReadBack(f.val, show, stod)
    case _ => true
  }

  ghost predicate Printable(v: Value, show: real -> Bytes, stod: Stod) {
    WellFormed(v) && DoublesReadBack(v, show, stod)
  }

  lemma {:induction false} NoDoublesRead(v: Value, show: real -> Bytes, stod: Stod)
    requires NoDouble(v)
    ensures DoublesReadBack(v, show, stod)
  {
    match v
    case Arr(xs) => forall x | x in xs ensures DoublesReadBack(x, show, stod) { NoDoublesRead(x, show, stod); }
    case Obj(fs) => forall f | f in fs ensures DoublesReadBack(f.val, show, stod) { NoDoublesRead(f.val, show, stod); }
    case _ =>
  }

  // ---------- the ordered map ----------

  lemma {:induction false} InsertLast(fs: seq<Field>, key: Bytes, val: Value)
    requires forall f :: f in fs ==> KeyLess(f.key, key)
    ensures Insert(fs, key, val) == fs + [Field(key, val)]
  {
    if fs != [] {
      assert fs[0] in fs;
      KeyLessTotal(fs[0].key, key);
      InsertLast(fs[1..], key, val);
    }
  }

  lemma {:induction false} InsertKeys(fs: seq<Field>, key: Bytes, val: Value)
    ensures forall f :: f in Insert(fs, key, val) ==> f in fs || f == Field(key, val)
  {
    if fs != [] { InsertKeys(fs[1..], key, val); }
  }

  lemma SortedCons(f: Field, fs: seq<Field>)
    requires Sorted(fs)
    requires forall g :: g in fs ==> KeyLess(f.key, g.key)
    ensures Sorted([f] + fs)
  {
    var all := [f] + fs;
    forall i, j | 0 <= i < j < |all| ensures KeyLess(all[i].key, all[j].key) {
      assert all[j] == fs[j - 1] && fs[j - 1] in fs;
      if i > 0 { assert all[i] == fs[i - 1]; }
    }
  }

  lemma SortedTail(fs: seq<Field>)
    requires Sorted(fs) && fs != []
    ensures Sorted(fs[1..])
    ensures forall g :: g in fs[1..] ==> KeyLess(fs[0].key, g.key)
  {
    forall g | g in fs[1..] ensures KeyLess(fs[0].key, g.key) {
      var j :| 0 <= j < |fs[1..]| && fs[1..][j] == g;
      assert fs[j + 1] == g;
    }
  }

  lemma {:induction false} InsertSorted(fs: seq<Field>, key: Bytes, val: Value)
    requires Sorted(fs)
    ensures Sorted(Insert(fs, key, val))
  {
    if fs != [] {
      SortedTail(fs);
      KeyLessTotal(key, fs[0].key);
      if key == fs[0].key {
        SortedCons(Field(key, val), fs[1..]);
      } else if KeyLess(key, fs[0].key) {
        forall g | g in fs ensures KeyLess(key, g.key) {
          if g != fs[0] {
            assert fs == [fs[0]] + fs[1..];
            KeyLessTransitive(key, fs[0].key, g.key);
          }
        }
        SortedCons(Field(key, val), fs);
      } else {
        InsertSorted(fs[1..], key, val);
        InsertKeys(fs[1..], key, val);
        SortedCons(fs[0], Insert(fs[1..], key, val));
      }
    }
  }

  lemma InsertNext(acc: seq<Field>, fs: seq<Field>)
    requires fs != [] && Sorted(acc + fs)
    ensures Insert(acc, fs[0].key, fs[0].val) == acc + [fs[0]]
  {
    var all := acc + fs;
    forall f | f in acc ensures KeyLess(f.key, fs[0].key) {
      var i :| 0 <= i < |acc| && acc[i] == f;
      assert all[i] == f && all[|acc|] == fs[0];
    }
    InsertLast(acc, fs[0].key, fs[0].val);
  }

  // ---------- the text a value is printed as ----------

  ghost function TreeOf(v: Value, show: real -> Bytes, stod: Stod): Tree
    requires Printable(v, show, stod)
    decreases v, 1
  {
    match v
    case Null => TNull
    case Bool(b) => TBool(b)
    case Int(i) => TNumber(NumeralOf(i))
    case Double(d) => (var n :| ShownAs(d, n, show, stod); TNumber(n))
    case Str(s) => TString(PiecesOf(s))
    case Arr(xs) => TArray(TreesOf(xs, show, stod))
    case Obj(fs) => TObject(MembersOf(fs, show, stod))
  }

  ghost function TreesOf(xs: seq<Value>, show: real -> Bytes, stod: Stod): (ts: seq<Tree>)
    requires forall x :: x in xs ==> Printable(x, show, stod)
    ensures |ts| == |xs|
    decreases xs, 0
  {
    if xs == [] then [] else [TreeOf(xs[0], show, stod)] + TreesOf(xs[1..], show, stod)
  }

  ghost function MembersOf(fs: seq<Field>, show: real -> Bytes, stod: Stod): (ms: seq<Member>)
    requires forall f :: f in fs ==> Printable(f.val, show, stod)
    ensures |ms| == |fs|
    decreases fs, 0
  {
    if fs == [] then []
    else [Member(PiecesOf(fs[0].key), TreeOf(fs[0].val, show, stod))] + MembersOf(fs[1..], show, stod)
  }

  lemma ItemTokensHead(xs: seq<Value>, show: real -> Bytes)
    requires xs != []
    ensures ItemTokens(xs, true, show) == Tokens(xs[0], show) + ItemTokens(xs[1..], false, show)
  {
    assert [] + Tokens(xs[0], show) == Tokens(xs[0], show);
  }

  lemma ItemTokensComma(xs: seq<Value>, show: real -> Bytes)
    requires xs != []
    ensures ItemTokens(xs, false, show) == [[COMMA]] + ItemTokens(xs, true, show)
  {
    var t, r := Tokens(xs[0], show), ItemTokens(xs[1..], false, show);
    assert [[COMMA]] + t + r == [[COMMA]] + ([] + t + r);
  }

  lemma FieldTokensHead(fs: seq<Field>, show: real -> Bytes)
    requires fs != []
    ensures FieldTokens(fs, true, show) == FieldHead(fs[0], show) + FieldTokens(fs[1..], false, show)
  {
    assert [] + FieldHead(fs[0], show) == FieldHead(fs[0], show);
  }

  lemma FieldTokensComma(fs: seq<Field>, show: real -> Bytes)
    requires fs != []
    ensures FieldTokens(fs, false, show) == [[COMMA]] + FieldTokens(fs, true, show)
  {
    var t, r := FieldHead(fs[0], show), FieldTokens(fs[1..], false, show);
    assert [[COMMA]] + t + r == [[COMMA]] + ([] + t + r);
  }

  function FieldHead(f: Field, show: real -> Bytes): seq<Bytes> {
    [Quoted(f.key), [COLON]] + Tokens(f.val, show)
  }

  ghost predicate IsTreeOf(t: Tree, v: Value, show: real -> Bytes, stod: Stod) {
    Legal(t) && TreeTokens(t) == Tokens(v, show) && Meaning(t, stod) == v
  }

  // The printer writes a JSON text that means the value.
  lemma {:induction false} TreeOfIs(v: Value, show: real -> Bytes, stod: Stod)
    requires Printable(v, show, stod)
    ensures IsTreeOf(TreeOf(v, show, stod), v, show, stod)
    decreases v, 1
  {
    match v
    case Arr(xs) => ArrayOfIs(xs, show, stod);
    case Obj(fs) =>
      assert [] + fs == fs;
      ObjectOfIs(fs, show, stod);
    case _ => ScalarIs(v, show, stod);
  }

  lemma ScalarIs(v: Value, show: real -> Bytes, stod: Stod)
    requires Printable(v, show, stod) && !v.Arr? && !v.Obj?
    ensures IsTreeOf(TreeOf(v, show, stod), v, show, stod)
  {
    match v
    case Int(i) => NumeralOfIs(i, stod);
    case Str(s) => PiecesOfIs(s);
    case _ =>
  }

  lemma {:induction false} ArrayOfIs(xs: seq<Value>, show: real -> Bytes, stod: Stod)
    requires forall x :: x in xs ==> Printable(x, show, stod)
    ensures IsTreeOf(TArray(TreesOf(xs, show, stod)), Arr(xs), show, stod)
    decreases xs, 1
  {
    TreesOfIs(xs, show, stod);
    var ts := TreesOf(xs, show, stod);
    assert Tokens(Arr(xs), show) == [[91]] + (ItemTokens(xs, true, show) + [[93]]);
    assert ItemMeanings(ts, stod) == xs;
  }

  lemma {:induction false} TreesOfIs(xs: seq<Value>, show: real -> Bytes, stod: Stod)
    requires forall x :: x in xs ==> Printable(x, show, stod)
    ensures var ts := TreesOf(xs, show, stod);
            && (forall i :: 0 <= i < |ts| ==> Legal(ts[i]) && Meaning(ts[i], stod) == xs[i])
            && ElementTokens(ts) == ItemTokens(xs, true, show)
    decreases xs, 0
  {
    if xs != [] {
      assert xs[0] in xs;
      TreeOfIs(xs[0], show, stod);
      TreesOfIs(xs[1..], show, stod);
      ItemTokensHead(xs, show);
      if |xs| > 1 { ItemTokensComma(xs[1..], show); }
      assert TreesOf(xs, show, stod)[1..] == TreesOf(xs[1..], show, stod);
    }
  }

  lemma ObjectTokens(fs: seq<Field>, show: real -> Bytes)
    ensures Tokens(Obj(fs), show) == [[123]] + (FieldTokens(fs, true, show) + [[125]])
  {}

  lemma {:induction false} ObjectOfIs(fs: seq<Field>, show: real -> Bytes, stod: Stod)
    requires Sorted([] + fs) && forall f :: f in fs ==> Printable(f.val, show, stod)
    ensures IsTreeOf(TObject(MembersOf(fs, show, stod)), Obj(fs), show, stod)
    decreases fs, 1
  {
    MembersOfIs(fs, show, stod);
    MembersAssign([], MembersOf(fs, show, stod), fs, stod);
    assert [] + fs == fs;
    ObjectTokens(fs, show);
  }

  lemma {:induction false} MembersOfIs(fs: seq<Field>, show: real -> Bytes, stod: Stod)
    requires forall f :: f in fs ==> Printable(f.val, show, stod)
    ensures var ms := MembersOf(fs, show, stod);
            && LegalMembers(ms) && MemberTokens(ms) == FieldTokens(fs, true, show)
            && forall i :: 0 <= i < |ms| ==>
                 Meanings(ms[i].key) == fs[i].key && Meaning(ms[i].val, stod) == fs[i].val
    decreases fs, 0
  {
    if fs != [] {
      assert fs[0] in fs;
      PiecesOfIs(fs[0].key);
      TreeOfIs(fs[0].val, show, stod);
      MembersOfIs(fs[1..], show, stod);
      FieldTokensHead(fs, show);
      if |fs| > 1 { FieldTokensComma(fs[1..], show); }
      var ms := MembersOf(fs, show, stod);
      assert ms[1..] == MembersOf(fs[1..], show, stod);
      assert MemberHead(ms[0]) == FieldHead(fs[0], show);
    }
  }

  // Each member means the field.
  ghost predicate MeanFields(ms: seq<Member>, fs: seq<Field>, stod: Stod) {
    && LegalMembers(ms) && |ms| == |fs|
    && forall i :: 0 <= i < |ms| ==> Meanings(ms[i].key) == fs[i].key && Meaning(ms[i].val, stod) == fs[i].val
  }

  // Assigned in key order, members come out as they are.
  lemma {:induction false} MembersAssign(acc: seq<Field>, ms: seq<Member>, fs: seq<Field>, stod: Stod)
    requires Sorted(acc + fs) && MeanFields(ms, fs, stod)
    ensures Assigned(acc, ms, stod) == acc + fs
    decreases |fs|
  {
    if fs == [] {
      assert acc + fs == acc;
    } else {
      assert acc + [fs[0]] + fs[1..] == acc + fs;
      InsertNext(acc, fs);
      assert Field(fs[0].key, fs[0].val) == fs[0];
      MembersAssign(acc + [fs[0]], ms[1..], fs[1..], stod);
    }
  }

  // ---------- main results ----------

  // Any spacing of a printed value's tokens reads back as the value, and the
  // reader stops right behind the last token.
  lemma SpacedReads(v: Value, gaps: seq<Bytes>, rest: Bytes, show: real -> Bytes, stod: Stod)
    requires Printable(v, show, stod)
    requires |gaps| == |Tokens(v, show)| && AllBlank(gaps) && Stops(rest)
    ensures ReadValue(Spaced(Tokens(v, show), gaps) + rest, stod) == Parsed(v, rest)
  {
    TreeOfIs(v, show, stod);
    TreeReads(TreeOf(v, show, stod), gaps, rest, stod);
  }

  // Parsing a spaced printing gives the value back and leaves nothing.
  lemma SpacedRoundTrip(v: Value, gaps: seq<Bytes>, show: real -> Bytes, stod: Stod)
    requires Printable(v, show, stod)
    requires |gaps| == |Tokens(v, show)| && AllBlank(gaps)
    ensures Read(Spaced(Tokens(v, show), gaps), stod) == Parsed(v, [])
  {
    var text := Spaced(Tokens(v, show), gaps);
    assert text + [] == text;
    SpacedReads(v, gaps, [], show, stod);
    ReadValueSkips(text, stod);
  }

  lemma RoundTrip(v: Value, show: real -> Bytes, stod: Stod)
    requires Printable(v, show, stod)
    ensures Read(DumpText(v, show), stod) == Parsed(v, [])
  {
    ConcatIsSpaced(Tokens(v, show));
    SpacedRoundTrip(v, NoGaps(|Tokens(v, show)|), show, stod);
  }

  // Without doubles nothing is asked of the library.
  lemma DoubleFreeRoundTrip(v: Value, show: real -> Bytes, stod: Stod)
    requires WellFormed(v) && NoDouble(v)
    ensures Read(DumpText(v, show), stod) == Parsed(v, [])
  {
    NoDoublesRead(v, show, stod);
    RoundTrip(v, show, stod);
  }

  // Distinct printable values never share a text.
  lemma DumpInjective(v: Value, w: Value, show: real -> Bytes, stod: Stod)
    requires Printable(v, show, stod) && Printable(w, show, stod) && DumpText(v, show) == DumpText(w, show)
    ensures v == w
  {
    RoundTrip(v, show, stod);
    RoundTrip(w, show, stod);
  }

  // Whatever the bytes, the value read is one the class can hold.
  lemma {:induction false} ReadWellFormed(s: Bytes, stod: Stod)
    ensures WellFormed(ReadValue(s, stod).val)
    decreases |s|, 1
  {
    var t := SkipSpace(s);
    var c := Peek(t);
    if c == LBRACE {
      var u := SkipSpace(Drop1(t));
      if Peek(u) != RBRACE { ObjectLoopWellFormed(u, [], stod); }
    } else if c == LBRACKET {
      var u := SkipSpace(Drop1(t));
      if Peek(u) != RBRACKET { ArrayLoopWellFormed(u, [], stod); }
    }
  }

  lemma {:induction false} ArrayLoopWellFormed(s: Bytes, acc: seq<Value>, stod: Stod)
    requires forall x :: x in acc ==> WellFormed(x)
    ensures WellFormed(ArrayLoop(s, acc, stod).val)
    decreases |s|, 2
  {
    var p := ReadValue(SkipSpace(s), stod);
    ReadWellFormed(SkipSpace(s), stod);
    var t := SkipSpace(p.rest);
    if Peek(t) == COMMA { ArrayLoopWellFormed(Drop1(t), acc + [p.val], stod); }
  }

  lemma {:induction false} ObjectLoopWellFormed(s: Bytes, acc: seq<Field>, stod: Stod)
    requires Sorted(acc) && forall f :: f in acc ==> WellFormed(f.val)
    ensures WellFormed(ObjectLoop(s, acc, stod).val)
    decreases |s|, 2
  {
    var k := ReadString(SkipSpace(s));
    var t := SkipSpace(k.rest);
    if Peek(t) == COLON {
      var p := ReadValue(SkipSpace(Drop1(t)), stod);
      ReadWellFormed(SkipSpace(Drop1(t)), stod);
      InsertSorted(acc, k.s, p.val);
      InsertKeys(acc, k.s, p.val);
      var u := SkipSpace(p.rest);
      if Peek(u) == COMMA { ObjectLoopWellFormed(Drop1(u), Insert(acc, k.s, p.val), stod); }
    }
  }

  // On any bytes: what was read survives print and parse, if its doubles do.
  lemma PrintAfterParseStable(s: Bytes, show: real -> Bytes, stod: Stod)
    requires DoublesReadBack(Read(s, stod).val, show, stod)
    ensures Read(DumpText(Read(s, stod).val, show), stod) == Parsed(Read(s, stod).val, [])
  {
    ReadWellFormed(SkipSpace(s), stod);
    RoundTrip(Read(s, stod).val, show, stod);
  }

  // n has a point or an exponent and starts like a number.
  predicate StartsReal(n: Numeral) {
    Lexical(n) && IsReal(n) && (n.minus || n.whole != [])
  }

  // A printed double comes back exactly when its text is a number with a point
  // or an exponent that std::stod reads as the same double. An integral double
  // prints without either and comes back as an Int.
  lemma DoubleReadsBack(d: real, show: real -> Bytes, stod: Stod)
    requires show(d) != [] && !IsSpace(show(d)[0])
    ensures Read(DumpText(Double(d), show), stod) == Parsed(Double(d), [])
       <==> (exists n :: StartsReal(n) && NumeralText(n) == show(d)) && stod(show(d)) == Some(d)
  {
    var t := show(d);
    ConcatOne(t);
    assert SkipSpace(t) == t;
    if n :| StartsReal(n) && NumeralText(n) == t {
      RealTextReads(t, n, stod);
    }
    if ReadValue(t, stod) == Parsed(Double(d), []) {
      DoubleTextIs(t, d, stod);
    }
  }

  lemma RealTextReads(t: Bytes, n: Numeral, stod: Stod)
    requires StartsReal(n) && NumeralText(n) == t
    ensures ReadValue(t, stod) == Parsed(NumberMeaning(n, stod), [])
  {
    assert t + [] == t;
    NumberTokenReads(n, [], stod);
  }

  lemma DoubleTextIs(t: Bytes, d: real, stod: Stod)
    requires SkipSpace(t) == t && ReadValue(t, stod) == Parsed(Double(d), [])
    ensures (exists n :: StartsReal(n) && NumeralText(n) == t) && stod(t) == Some(d)
  {
    assert ReadNumber(t, stod) == Parsed(Double(d), []) && (Peek(t) == MINUS || IsDigit(Peek(t)));
    NumberIsDouble(t, d, stod);
    var n := ScanIsNumeral(t);
    assert NumeralText(n) + [] == NumeralText(n);
    assert StartsReal(n) && NumeralText(n) == t;
  }

  lemma NumberIsDouble(t: Bytes, d: real, stod: Stod)
    requires ReadNumber(t, stod) == Parsed(Double(d), [])
    ensures ScanNumber(t) == Scan(true, []) && stod(t) == Some(d)
  {
    assert t[..|t| - 0] == t;
  }

  lemma IntegralDoubleBecomesInt(d: real, i: int, show: real -> Bytes, stod: Stod)
    requires show(d) == Decimal(i) && INT64_MIN <= i <= INT64_MAX
    ensures Read(DumpText(Double(d), show), stod) == Parsed(Int(i), [])
  {
    ConcatOne(Decimal(i));
    DoubleFreeRoundTrip(Int(i), show, stod);
  }
}
