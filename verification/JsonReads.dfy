// Every JSON text is read as what it means, with any whitespace between its
// tokens, and the reader stops right behind its last token.
module JsonReads {
  import opened Collections
  import opened JsonValue
  import opened JsonParser
  import opened JsonGrammar

  // Bytes that cannot continue a number.
  predicate Stops(rest: Bytes) {
    var c := Peek(rest);
    !IsDigit(c) && c != DOT && c != LOWER_E && c != UPPER_E
  }

  // Bytes that end a list: anything but a blank, a comma or what continues a number.
  predicate Closes(c: Byte) {
    !IsSpace(c) && c != COMMA && Stops([c])
  }

  // ---------- whitespace and tokens ----------

  lemma {:induction false} SkipBlank(g: Bytes, s: Bytes)
    requires Blank(g)
    ensures SkipSpace(g + s) == SkipSpace(s)
  {
    if g == [] {
      assert g + s == s;
    } else {
      assert (g + s)[1..] == g[1..] + s;
      assert g[0] in g && forall c :: c in g[1..] ==> c in g;
      SkipBlank(g[1..], s);
    }
  }

  lemma {:induction false} SkipSpaceIdempotent(s: Bytes)
    ensures SkipSpace(SkipSpace(s)) == SkipSpace(s)
  {
    if s != [] && IsSpace(s[0]) { SkipSpaceIdempotent(s[1..]); }
  }

  lemma {:induction false} SpacedSplit(a: seq<Bytes>, b: seq<Bytes>, gaps: seq<Bytes>)
    requires |gaps| == |a| + |b|
    ensures Spaced(a + b, gaps) == Spaced(a, gaps[..|a|]) + Spaced(b, gaps[|a|..])
  {
    if a == [] {
      assert a + b == b && gaps[|a|..] == gaps;
    } else {
      SpacedSplit(a[1..], b, gaps[1..]);
      assert (a + b)[1..] == a[1..] + b;
      assert gaps[1..][..|a| - 1] == gaps[..|a|][1..];
      assert gaps[1..][|a| - 1..] == gaps[|a|..];
    }
  }

  lemma SpacedCons(t: Bytes, ts: seq<Bytes>, gaps: seq<Bytes>)
    requires |gaps| == 1 + |ts|
    ensures Spaced([t] + ts, gaps) == gaps[0] + t + Spaced(ts, gaps[1..])
  {
    assert ([t] + ts)[1..] == ts;
  }

  lemma SkipToToken(t: Bytes, ts: seq<Bytes>, gaps: seq<Bytes>, rest: Bytes)
    requires |gaps| == 1 + |ts| && AllBlank(gaps)
    requires t != [] && !IsSpace(t[0])
    ensures SkipSpace(Spaced([t] + ts, gaps) + rest) == t + (Spaced(ts, gaps[1..]) + rest)
  {
    var tail := t + (Spaced(ts, gaps[1..]) + rest);
    SpacedCons(t, ts, gaps);
    assert Spaced([t] + ts, gaps) + rest == gaps[0] + tail;
    assert gaps[0] in gaps;
    SkipBlank(gaps[0], tail);
  }

  lemma SpacedStops(t: Bytes, ts: seq<Bytes>, gaps: seq<Bytes>, rest: Bytes)
    requires |gaps| == 1 + |ts| && AllBlank(gaps)
    requires t != [] && Stops(t)
    ensures Stops(Spaced([t] + ts, gaps) + rest)
  {
    SpacedCons(t, ts, gaps);
    assert gaps[0] in gaps;
    if gaps[0] != [] { assert gaps[0][0] in gaps[0]; }
  }

  lemma ReadValueSkips(s: Bytes, stod: Stod)
    ensures ReadValue(SkipSpace(s), stod) == ReadValue(s, stod)
  {
    SkipSpaceIdempotent(s);
  }

  // ---------- strings ----------

  lemma {:induction false} RawReads(b: Bytes, tail: Bytes, acc: Bytes)
    requires 34 !in b && 92 !in b
    ensures StringLoop(b + tail, acc) == StringLoop(tail, acc + b)
    decreases |b|
  {
    if b == [] {
      assert b + tail == tail && acc + b == acc;
    } else {
      assert b[0] in b;
      assert (b + tail)[1..] == b[1..] + tail;
      RawReads(b[1..], tail, acc + [b[0]]);
      assert acc + [b[0]] + b[1..] == acc + b;
    }
  }

  lemma ShortReads(esc: Byte, tail: Bytes, acc: Bytes)
    requires esc in SHORT
    ensures StringLoop([92, esc] + tail, acc) == StringLoop(tail, acc + [SHORT[esc]])
  {
    var s := [92, esc] + tail;
    var t := s[1..];
    assert t == [esc] + tail && Drop1(t) == tail;
    assert ReadEscape(t) == ParsedString([SHORT[esc]], tail);
  }

  lemma LeadingHexStep(s: Bytes, acc: int)
    requires s != [] && IsHexDigit(s[0])
    ensures LeadingHex(s, acc) == LeadingHex(s[1..], 16 * acc + HexDigitValue(s[0]))
  {}

  lemma NumberReads(hex: Bytes)
    requires FourDigits(hex)
    ensures LeadingHex(hex, 0) == Number(hex)
  {
    assert hex[1..][1..] == hex[2..] && hex[2..][1..] == hex[3..] && hex[3..][1..] == [];
    LeadingHexStep(hex, 0);
    LeadingHexStep(hex[1..], HexDigitValue(hex[0]));
    LeadingHexStep(hex[2..], HexDigitValue(hex[0]) * 16 + HexDigitValue(hex[1]));
    LeadingHexStep(hex[3..], (HexDigitValue(hex[0]) * 16 + HexDigitValue(hex[1])) * 16 + HexDigitValue(hex[2]));
  }

  lemma DigitsRead(hex: Bytes)
    requires FourDigits(hex)
    ensures CodePoint(hex) == Utf8(Number(hex))
  {
    assert IsHexDigit(hex[0]) && IsHexDigit(hex[1]);
    assert SkipSpace(hex) == hex;
    NumberReads(hex);
  }

  lemma EscapeReads(hex: Bytes, tail: Bytes, acc: Bytes)
    requires FourDigits(hex)
    ensures StringLoop([92, 117] + hex + tail, acc) == StringLoop(tail, acc + Utf8(Number(hex)))
  {
    var s := [92, 117] + hex + tail;
    var t := s[1..];
    assert t[1..] == hex + tail;
    assert t[1..][..4] == hex && t[1..][4..] == tail;
    DigitsRead(hex);
    assert ReadEscape(t) == ParsedString(Utf8(Number(hex)), tail);
  }

  lemma PieceReads(p: Piece, tail: Bytes, acc: Bytes)
    requires LegalPiece(p)
    ensures StringLoop(PieceText(p) + tail, acc) == StringLoop(tail, acc + PieceMeaning(p))
  {
    match p {
      case Raw(b) => RawReads(b, tail, acc);
      case Short(esc) => ShortReads(esc, tail, acc);
      case Escaped(hex) => EscapeReads(hex, tail, acc);
    }
  }

  lemma {:induction false} PiecesRead(ps: seq<Piece>, tail: Bytes, acc: Bytes)
    requires LegalPieces(ps)
    ensures StringLoop(Texts(ps) + tail, acc) == StringLoop(tail, acc + Meanings(ps))
    decreases |ps|
  {
    if ps == [] {
      assert Texts(ps) + tail == tail && acc + Meanings(ps) == acc;
    } else {
      PieceReads(ps[0], Texts(ps[1..]) + tail, acc);
      Assoc(PieceText(ps[0]), Texts(ps[1..]), tail);
      PiecesRead(ps[1..], tail, acc + PieceMeaning(ps[0]));
      Assoc(acc, PieceMeaning(ps[0]), Meanings(ps[1..]));
    }
  }

  lemma StringEnds(text: Bytes, rest: Bytes, acc: Bytes)
    requires text == [QUOTE] + rest
    ensures StringLoop(text, acc) == ParsedString(acc, rest)
  {
    assert text[0] == QUOTE && text[1..] == rest;
  }

  // Section 7 of RFC 8259: a string reads as its bytes with every escape
  // replaced by what it stands for.
  lemma StringReads(ps: seq<Piece>, rest: Bytes)
    requires LegalPieces(ps)
    ensures ReadString(StringText(ps) + rest) == ParsedString(Meanings(ps), rest)
  {
    assert Drop1(StringText(ps) + rest) == Texts(ps) + ([34] + rest);
    PiecesRead(ps, [34] + rest, []);
    StringEnds([34] + rest, rest, [] + Meanings(ps));
    assert [] + Meanings(ps) == Meanings(ps);
  }

  // ---------- numbers ----------

  lemma {:induction false} AfterDigitsSkips(ds: Bytes, rest: Bytes)
    requires AreDigits(ds) && !IsDigit(Peek(rest))
    ensures AfterDigits(ds + rest) == rest
    decreases |ds|
  {
    if ds == [] {
      assert ds + rest == rest;
    } else {
      assert (ds + rest)[1..] == ds[1..] + rest;
      AfterDigitsSkips(ds[1..], rest);
    }
  }

  lemma {:induction false} DecimalIsNatural(ds: Bytes)
    requires AreDigits(ds)
    ensures DecimalValue(ds) == Natural(ds)
    decreases |ds|
  {
    if ds != [] { DecimalIsNatural(ds[..|ds| - 1]); }
  }

  // What may follow n: nothing that belongs to a number, and no sign where one
  // could still come.
  predicate MayFollow(n: Numeral, rest: Bytes) {
    Stops(rest)
    && (n.exponent.Some? && n.exponent.value.sign.None? && n.exponent.value.digits == [] ==>
          Peek(rest) != 43 && Peek(rest) != 45)
  }

  lemma FractionScans(f: Option<Bytes>, tail: Bytes)
    requires (f.Some? ==> AreDigits(f.value)) && !IsDigit(Peek(tail)) && Peek(tail) != DOT
    ensures ScanFraction(FractionText(f) + tail) == Scan(f.Some?, tail)
  {
    match f {
      case Some(ds) =>
        assert FractionText(f) + tail == [46] + (ds + tail);
        assert Drop1([46] + (ds + tail)) == ds + tail;
        AfterDigitsSkips(ds, tail);
      case None => assert FractionText(f) + tail == tail;
    }
  }

  lemma ExponentScans(n: Numeral, real': bool, rest: Bytes)
    requires Lexical(n) && MayFollow(n, rest)
    ensures ScanExponent(Scan(real', ExponentText(n.exponent) + rest)) == Scan(real' || n.exponent.Some?, rest)
  {
    if n.exponent.Some? {
      var x := n.exponent.value;
      assert Drop1(ExponentText(n.exponent) + rest) == SignText(x.sign) + (x.digits + rest);
      SignDrops(x.sign, x.digits, rest, SignText(x.sign) + (x.digits + rest));
      AfterDigitsSkips(x.digits, rest);
    } else {
      assert ExponentText(n.exponent) + rest == rest;
    }
  }

  lemma SignDrops(sign: Option<Byte>, digits: Bytes, rest: Bytes, t: Bytes)
    requires t == SignText(sign) + (digits + rest) && AreDigits(digits)
    requires sign.Some? ==> sign.value == 43 || sign.value == 45
    requires sign.None? && digits == [] ==> Peek(rest) != 43 && Peek(rest) != 45
    ensures (if Peek(t) == PLUS || Peek(t) == MINUS then Drop1(t) else t) == digits + rest
  {
    if sign.Some? {
      assert Drop1(t) == digits + rest;
    } else {
      assert t == digits + rest;
      assert digits != [] ==> IsDigit(digits[0]);
    }
  }

  lemma ExponentHead(n: Numeral, rest: Bytes)
    requires Lexical(n) && Stops(rest)
    ensures var c := Peek(ExponentText(n.exponent) + rest); !IsDigit(c) && c != DOT
  {
    if n.exponent.None? { assert ExponentText(n.exponent) + rest == rest; }
  }

  lemma FractionHead(n: Numeral, tail: Bytes)
    requires Lexical(n) && !IsDigit(Peek(tail))
    ensures !IsDigit(Peek(FractionText(n.fraction) + tail))
  {
    if n.fraction.None? { assert FractionText(n.fraction) + tail == tail; }
  }

  lemma WholeScans(n: Numeral, tail: Bytes)
    requires Lexical(n) && !IsDigit(Peek(tail)) && (n.whole == [] && !n.minus ==> Peek(tail) != MINUS)
    ensures var s := (if n.minus then [45] else []) + (n.whole + tail);
            AfterDigits(if Peek(s) == MINUS then Drop1(s) else s) == tail
  {
    var s := (if n.minus then [45] else []) + (n.whole + tail);
    AfterDigitsSkips(n.whole, tail);
    if n.minus {
      assert Drop1(s) == n.whole + tail;
    } else {
      assert s == n.whole + tail;
      if n.whole == [] { assert s == tail; } else { assert IsDigit(n.whole[0]); }
    }
  }

  lemma NumeralRegroup(n: Numeral, rest: Bytes)
    ensures NumeralText(n) + rest
         == (if n.minus then [45] else [])
            + (n.whole + (FractionText(n.fraction) + (ExponentText(n.exponent) + rest)))
  {}

  lemma NumeralScans(n: Numeral, rest: Bytes)
    requires Lexical(n) && MayFollow(n, rest) && (IsReal(n) || n.minus || n.whole != [])
    ensures ScanNumber(NumeralText(n) + rest) == Scan(IsReal(n), rest)
  {
    var e := ExponentText(n.exponent) + rest;
    var f := FractionText(n.fraction) + e;
    NumeralRegroup(n, rest);
    ExponentHead(n, rest);
    FractionHead(n, e);
    if IsReal(n) { RealHead(n, rest); }
    WholeScans(n, f);
    FractionScans(n.fraction, e);
    ExponentScans(n, n.fraction.Some?, rest);
  }

  lemma RealHead(n: Numeral, rest: Bytes)
    requires Lexical(n) && IsReal(n)
    ensures Peek(FractionText(n.fraction) + (ExponentText(n.exponent) + rest)) != MINUS
  {
    if n.fraction.None? {
      assert FractionText(n.fraction) + (ExponentText(n.exponent) + rest) == ExponentText(n.exponent) + rest;
    }
  }

  // Section 6 of RFC 8259: a number reads as the integer it writes or as what
  // the library makes of it, Null where neither holds it, and nothing behind it
  // is touched.
  lemma NumeralReads(n: Numeral, rest: Bytes, stod: Stod)
    requires Lexical(n) && MayFollow(n, rest) && (IsReal(n) || n.whole != [])
    ensures ReadNumber(NumeralText(n) + rest, stod) == Parsed(NumberMeaning(n, stod), rest)
  {
    var s := NumeralText(n) + rest;
    NumeralScans(n, rest);
    assert s[..|s| - |rest|] == NumeralText(n);
    if !IsReal(n) { IntegerStoll(n); }
  }

  lemma IntegerStoll(n: Numeral)
    requires Lexical(n) && !IsReal(n) && n.whole != []
    ensures Stoll(NumeralText(n)) == match NumberMeaning(n, _ => None) { case Int(i) => Some(i) case _ => None }
  {
    DecimalIsNatural(n.whole);
    assert IsDigit(n.whole[0]);
    if n.minus {
      assert NumeralText(n) == [45] + n.whole && Drop1(NumeralText(n)) == n.whole;
    } else {
      assert NumeralText(n) == n.whole;
    }
  }

  // ---------- the scanner finds nothing but numbers ----------

  lemma {:induction false} DigitRun(s: Bytes) returns (ds: Bytes)
    ensures AreDigits(ds) && s == ds + AfterDigits(s) && !IsDigit(Peek(AfterDigits(s)))
    decreases |s|
  {
    if s != [] && IsDigit(s[0]) {
      var more := DigitRun(s[1..]);
      ds := [s[0]] + more;
    } else {
      ds := [];
    }
  }

  lemma Headed(s: Bytes)
    requires s != []
    ensures s == [Peek(s)] + Drop1(s)
  {}

  lemma FractionOf(s: Bytes) returns (f: Option<Bytes>)
    ensures (f.Some? ==> AreDigits(f.value))
    ensures s == FractionText(f) + ScanFraction(s).rest && ScanFraction(s).isDouble == f.Some?
  {
    if Peek(s) == DOT {
      Headed(s);
      var ds := DigitRun(Drop1(s));
      f := Some(ds);
    } else {
      f := None;
    }
  }

  lemma ExponentOf(s: Bytes, before: bool) returns (e: Option<Exponent>)
    ensures Lexical(Numeral(false, [], None, e))
    ensures s == ExponentText(e) + ScanExponent(Scan(before, s)).rest
    ensures ScanExponent(Scan(before, s)).isDouble == (before || e.Some?)
  {
    if Peek(s) == LOWER_E || Peek(s) == UPPER_E {
      Headed(s);
      var sign, ds := SignedRun(Drop1(s));
      e := Some(Exponent(Peek(s), sign, ds));
      ExponentAssembles(Peek(s), sign, ds, ScanExponent(Scan(before, s)).rest);
    } else {
      e := None;
    }
  }

  lemma ExponentAssembles(mark: Byte, sign: Option<Byte>, ds: Bytes, rest: Bytes)
    ensures [mark] + (SignText(sign) + ds + rest) == ExponentText(Some(Exponent(mark, sign, ds))) + rest
  {}

  lemma SignedRun(t: Bytes) returns (sign: Option<Byte>, ds: Bytes)
    ensures AreDigits(ds) && (sign.Some? ==> sign.value == 43 || sign.value == 45)
    ensures t == SignText(sign) + ds + AfterDigits(if Peek(t) == PLUS || Peek(t) == MINUS then Drop1(t) else t)
  {
    if Peek(t) == PLUS || Peek(t) == MINUS {
      Headed(t);
      ds := DigitRun(Drop1(t));
      sign := Some(Peek(t));
    } else {
      ds := DigitRun(t);
      sign := None;
      assert [] + ds == ds;
    }
  }

  // Whatever the bytes, what the scanner passes over is a number.
  lemma ScanIsNumeral(s: Bytes) returns (n: Numeral)
    ensures Lexical(n) && s == NumeralText(n) + ScanNumber(s).rest && ScanNumber(s).isDouble == IsReal(n)
    ensures n.minus <==> Peek(s) == MINUS
    ensures n.whole != [] <==> IsDigit(Peek(if Peek(s) == MINUS then Drop1(s) else s))
  {
    var ds := WholeOf(s);
    var u := AfterDigits(if Peek(s) == MINUS then Drop1(s) else s);
    var f := FractionOf(u);
    var e := ExponentOf(ScanFraction(u).rest, ScanFraction(u).isDouble);
    n := Numeral(Peek(s) == MINUS, ds, f, e);
    NumeralRegroup(n, ScanNumber(s).rest);
  }

  lemma WholeOf(s: Bytes) returns (ds: Bytes)
    ensures var t := if Peek(s) == MINUS then Drop1(s) else s;
            && AreDigits(ds) && s == (if Peek(s) == MINUS then [45] else []) + (ds + AfterDigits(t))
            && (ds != [] <==> IsDigit(Peek(t)))
  {
    var t := if Peek(s) == MINUS then Drop1(s) else s;
    if Peek(s) == MINUS { Headed(s); }
    ds := DigitRun(t);
    assert ds == [] ==> t == AfterDigits(t);
    assert [] + (ds + AfterDigits(t)) == ds + AfterDigits(t);
  }

  // ---------- values ----------

  // A value's first token, the one the parser branches on.
  lemma FirstToken(t: Tree)
    requires Legal(t)
    ensures var k := TreeTokens(t)[0]; k != [] && !IsSpace(k[0]) && k[0] != RBRACKET
  {
    if t.TNumber? { NumeralHead(t.n); }
  }

  lemma NumeralHead(n: Numeral)
    requires Lexical(n) && (n.minus || n.whole != [])
    ensures NumeralText(n) != [] && (NumeralText(n)[0] == MINUS || IsDigit(NumeralText(n)[0]))
  {
    assert n.whole != [] ==> IsDigit(n.whole[0]);
  }

  lemma TokensCons(ts: seq<Bytes>)
    requires ts != []
    ensures ts == [ts[0]] + ts[1..]
  {}

  // The one token of a scalar, read with anything behind it.
  lemma TokenReads(t: Tree, rest: Bytes, stod: Stod)
    requires Legal(t) && !t.TArray? && !t.TObject? && Stops(rest)
    ensures ReadValue(TreeTokens(t)[0] + rest, stod) == Parsed(Meaning(t, stod), rest)
  {
    match t
    case TNumber(n) => NumberTokenReads(n, rest, stod);
    case TString(ps) => StringTokenReads(ps, rest, stod);
    case TNull => NullReads(rest);
    case TBool(b) => BoolReads(b, rest);
  }

  lemma NumberTokenReads(n: Numeral, rest: Bytes, stod: Stod)
    requires Lexical(n) && (n.minus || n.whole != []) && (IsReal(n) || n.whole != []) && MayFollow(n, rest)
    ensures ReadValue(NumeralText(n) + rest, stod) == Parsed(NumberMeaning(n, stod), rest)
  {
    var s := NumeralText(n) + rest;
    NumeralHead(n);
    NumeralReads(n, rest, stod);
    assert SkipSpace(s) == s && Peek(s) == NumeralText(n)[0];
  }

  lemma StringTokenReads(ps: seq<Piece>, rest: Bytes, stod: Stod)
    requires LegalPieces(ps)
    ensures ReadValue(StringText(ps) + rest, stod) == Parsed(Str(Meanings(ps)), rest)
  {
    var s := StringText(ps) + rest;
    StringReads(ps, rest);
    assert SkipSpace(s) == s && Peek(s) == QUOTE;
  }

  lemma NullReads(rest: Bytes)
    ensures ReadNull([110, 117, 108, 108] + rest) == Parsed(Null, rest)
  {
    var s := [110, 117, 108, 108] + rest;
    assert s[..4] == [110, 117, 108, 108] && s[4..] == rest;
  }

  lemma BoolReads(b: bool, rest: Bytes)
    ensures ReadBool((if b then [116, 114, 117, 101] else [102, 97, 108, 115, 101]) + rest) == Parsed(Bool(b), rest)
  {
    var s := (if b then [116, 114, 117, 101] else [102, 97, 108, 115, 101]) + rest;
    assert b ==> s[..4] == [116, 114, 117, 101] && s[4..] == rest;
    assert !b ==> s[..5] == [102, 97, 108, 115, 101] && s[5..] == rest && s[..4][0] == 102;
  }

  lemma OneToken(t: Bytes, ts: seq<Bytes>, gaps: seq<Bytes>, rest: Bytes)
    requires ts == [t] && |gaps| == 1 && AllBlank(gaps) && t != [] && !IsSpace(t[0])
    ensures SkipSpace(Spaced(ts, gaps) + rest) == t + rest
  {
    assert ts == [t] + [];
    SkipToToken(t, [], gaps, rest);
    assert t + (Spaced([], gaps[1..]) + rest) == t + rest;
  }

  lemma ScalarReads(t: Tree, gaps: seq<Bytes>, rest: Bytes, stod: Stod)
    requires Legal(t) && !t.TArray? && !t.TObject?
    requires |gaps| == |TreeTokens(t)| && AllBlank(gaps) && Stops(rest)
    ensures ReadValue(Spaced(TreeTokens(t), gaps) + rest, stod) == Parsed(Meaning(t, stod), rest)
  {
    var ts := TreeTokens(t);
    FirstToken(t);
    TokenReads(t, rest, stod);
    assert |ts| == 1 && ts == [ts[0]];
    OneToken(ts[0], ts, gaps, rest);
    ReadValueSkips(Spaced(ts, gaps) + rest, stod);
  }

  // Any spacing of a text's tokens reads as its meaning, and the reader stops
  // right behind the last token.
  lemma {:induction false} TreeReads(t: Tree, gaps: seq<Bytes>, rest: Bytes, stod: Stod)
    requires Legal(t)
    requires |gaps| == |TreeTokens(t)| && AllBlank(gaps) && Stops(rest)
    ensures ReadValue(Spaced(TreeTokens(t), gaps) + rest, stod) == Parsed(Meaning(t, stod), rest)
    decreases t, 2
  {
    match t
    case TArray(xs) => ArrayReads(xs, t, gaps, rest, stod);
    case TObject(ms) => ObjectReads(ms, t, gaps, rest, stod);
    case _ => ScalarReads(t, gaps, rest, stod);
  }

  lemma {:induction false} ArrayReads(xs: seq<Tree>, t: Tree, gaps: seq<Bytes>, rest: Bytes, stod: Stod)
    requires t == TArray(xs) && Legal(t)
    requires |gaps| == |TreeTokens(t)| && AllBlank(gaps) && Stops(rest)
    ensures ReadValue(Spaced(TreeTokens(t), gaps) + rest, stod) == Parsed(Meaning(t, stod), rest)
    decreases t, 1
  {
    var inner := ElementTokens(xs) + [[93]];
    var text := Spaced(inner, gaps[1..]) + rest;
    OpenBracket(LBRACKET, inner, gaps, rest, text, stod);
    if xs == [] {
      CloseBracket(RBRACKET, inner, gaps[1..], rest);
    } else {
      ItemsInside(xs, RBRACKET, inner, gaps[1..], rest, text, stod);
    }
  }

  // Behind the opening bracket of an array with items.
  lemma {:induction false} ItemsInside(xs: seq<Tree>, close: Byte, inner: seq<Bytes>, gaps: seq<Bytes>,
                                       rest: Bytes, text: Bytes, stod: Stod)
    requires Closes(close) && xs != [] && forall i :: 0 <= i < |xs| ==> Legal(xs[i])
    requires inner == ElementTokens(xs) + [[close]]
    requires |gaps| == |inner| && AllBlank(gaps) && text == Spaced(inner, gaps) + rest
    ensures Peek(SkipSpace(text)) != RBRACKET
    ensures ArrayLoop(SkipSpace(text), [], stod) == Parsed(Arr(ItemMeanings(xs, stod)), rest)
    decreases xs, 5
  {
    ItemsRead(xs, close, inner, gaps, rest, [], stod);
    assert [] + ItemMeanings(xs, stod) == ItemMeanings(xs, stod);
    FirstToken(xs[0]);
    assert inner[0] == TreeTokens(xs[0])[0];
    HeadByte(inner, gaps, rest);
    ArrayLoopSkips(text, [], stod);
  }

  lemma {:induction false} ObjectReads(ms: seq<Member>, t: Tree, gaps: seq<Bytes>, rest: Bytes, stod: Stod)
    requires t == TObject(ms) && Legal(t)
    requires |gaps| == |TreeTokens(t)| && AllBlank(gaps) && Stops(rest)
    ensures ReadValue(Spaced(TreeTokens(t), gaps) + rest, stod) == Parsed(Meaning(t, stod), rest)
    decreases t, 1
  {
    var inner := MemberTokens(ms) + [[125]];
    var text := Spaced(inner, gaps[1..]) + rest;
    OpenBracket(LBRACE, inner, gaps, rest, text, stod);
    if ms == [] {
      CloseBracket(RBRACE, inner, gaps[1..], rest);
    } else {
      MembersInside(ms, RBRACE, inner, gaps[1..], rest, text, stod);
    }
  }

  ghost predicate LegalMembers(ms: seq<Member>) {
    forall i :: 0 <= i < |ms| ==> LegalPieces(ms[i].key) && Legal(ms[i].val)
  }

  // Behind the opening brace of an object with members.
  lemma {:induction false} MembersInside(ms: seq<Member>, close: Byte, inner: seq<Bytes>, gaps: seq<Bytes>,
                                         rest: Bytes, text: Bytes, stod: Stod)
    requires Closes(close) && ms != [] && LegalMembers(ms)
    requires inner == MemberTokens(ms) + [[close]]
    requires |gaps| == |inner| && AllBlank(gaps) && text == Spaced(inner, gaps) + rest
    ensures Peek(SkipSpace(text)) != RBRACE
    ensures ObjectLoop(SkipSpace(text), [], stod) == Parsed(Obj(Assigned([], ms, stod)), rest)
    decreases ms, 5
  {
    MembersRead(ms, close, inner, gaps, rest, [], stod);
    assert inner[0] == StringText(ms[0].key);
    HeadByte(inner, gaps, rest);
    ObjectLoopSkips(text, [], stod);
  }

  lemma HeadByte(ts: seq<Bytes>, gaps: seq<Bytes>, rest: Bytes)
    requires ts != [] && |gaps| == |ts| && AllBlank(gaps)
    requires ts[0] != [] && !IsSpace(ts[0][0])
    ensures Peek(SkipSpace(Spaced(ts, gaps) + rest)) == ts[0][0]
  {
    TokensCons(ts);
    SkipToToken(ts[0], ts[1..], gaps, rest);
  }

  // Behind its opening bracket, a container is read from the text inside.
  lemma OpenBracket(l: Byte, inner: seq<Bytes>, gaps: seq<Bytes>, rest: Bytes, text: Bytes, stod: Stod)
    requires (l == LBRACKET || l == LBRACE) && |gaps| == 1 + |inner| && AllBlank(gaps)
    requires text == Spaced(inner, gaps[1..]) + rest
    ensures var t := SkipSpace(text);
            var s := Spaced([[l]] + inner, gaps) + rest;
            |t| < |s| && ReadValue(s, stod)
            == if l == LBRACKET then
                 if Peek(t) == RBRACKET then Parsed(Arr([]), Drop1(t)) else ArrayLoop(t, [], stod)
               else
                 if Peek(t) == RBRACE then Parsed(Obj([]), Drop1(t)) else ObjectLoop(t, [], stod)
  {
    SkipToToken([l], inner, gaps, rest);
    SpacedCons([l], inner, gaps);
    assert Drop1([l] + text) == text;
  }

  lemma CloseBracket(r: Byte, ts: seq<Bytes>, gaps: seq<Bytes>, rest: Bytes)
    requires !IsSpace(r) && ts == [[r]] && |gaps| == 1 && AllBlank(gaps)
    ensures var t := SkipSpace(Spaced(ts, gaps) + rest);
            Peek(t) == r && Drop1(t) == rest
  {
    assert ts == [[r]] + [];
    SkipToToken([r], [], gaps, rest);
    assert [r] + (Spaced([], gaps[1..]) + rest) == [r] + rest;
    assert Drop1([r] + rest) == rest;
  }

  lemma NextToken(c: Byte, ts: seq<Bytes>, more: seq<Bytes>, gaps: seq<Bytes>, rest: Bytes)
    requires !IsSpace(c) && ts == [[c]] + more && |gaps| == |ts| && AllBlank(gaps)
    ensures var t := SkipSpace(Spaced(ts, gaps) + rest);
            Peek(t) == c && Drop1(t) == Spaced(more, gaps[1..]) + rest && t != []
  {
    SkipToToken([c], more, gaps, rest);
    assert Drop1([c] + (Spaced(more, gaps[1..]) + rest)) == Spaced(more, gaps[1..]) + rest;
  }

  lemma ArrayLoopSkips(s: Bytes, acc: seq<Value>, stod: Stod)
    ensures ArrayLoop(SkipSpace(s), acc, stod) == ArrayLoop(s, acc, stod)
  {
    SkipSpaceIdempotent(s);
  }

  lemma ObjectLoopSkips(s: Bytes, acc: seq<Field>, stod: Stod)
    ensures ObjectLoop(SkipSpace(s), acc, stod) == ObjectLoop(s, acc, stod)
  {
    SkipSpaceIdempotent(s);
  }

  lemma TokensRegroup(head: seq<Bytes>, c: seq<Bytes>, tail: seq<Bytes>, close: seq<Bytes>)
    ensures (head + (c + tail)) + close == head + (c + (tail + close))
    ensures (head + []) + close == head + (close + [])
  {}

  // The items behind an open bracket: one, and then the closing bracket or a comma.
  lemma ElementTokensSplit(xs: seq<Tree>, close: Byte)
    requires xs != []
    ensures var more := ElementTokens(xs[1..]) + [[close]];
            ElementTokens(xs) + [[close]] == TreeTokens(xs[0]) + if |xs| == 1 then [[close]] + [] else [[44]] + more
  {
    TokensRegroup(TreeTokens(xs[0]), [[44]], ElementTokens(xs[1..]), [[close]]);
  }

  lemma MemberTokensSplit(ms: seq<Member>, close: Byte)
    requires ms != []
    ensures var more := MemberTokens(ms[1..]) + [[close]];
            MemberTokens(ms) + [[close]] == MemberHead(ms[0]) + if |ms| == 1 then [[close]] + [] else [[44]] + more
  {
    TokensRegroup(MemberHead(ms[0]), [[44]], MemberTokens(ms[1..]), [[close]]);
  }

  lemma AllBlankSlices(gaps: seq<Bytes>, k: nat)
    requires AllBlank(gaps) && k <= |gaps|
    ensures AllBlank(gaps[..k]) && AllBlank(gaps[k..])
  {}

  lemma ArrayLoopStep(s: Bytes, acc: seq<Value>, x: Value, after: Bytes, stod: Stod)
    requires ReadValue(SkipSpace(s), stod) == Parsed(x, after)
    ensures var u := SkipSpace(after);
            |u| <= |s| && ArrayLoop(s, acc, stod)
            == if Peek(u) == COMMA then ArrayLoop(Drop1(u), acc + [x], stod) else Parsed(Arr(acc + [x]), Drop1(u))
  {}

  // An item, up to the comma or bracket behind it.
  lemma {:induction false} ItemReads(x: Tree, c: Byte, more: seq<Bytes>, gaps: seq<Bytes>, rest: Bytes,
                                     text: Bytes, after: Bytes, stod: Stod)
    requires Legal(x) && (c == COMMA || Closes(c))
    requires |gaps| == |TreeTokens(x)| + 1 + |more| && AllBlank(gaps)
    requires text == Spaced(TreeTokens(x) + ([[c]] + more), gaps) + rest
    requires after == Spaced([[c]] + more, gaps[|TreeTokens(x)|..]) + rest
    ensures ReadValue(SkipSpace(text), stod) == Parsed(Meaning(x, stod), after) && |after| <= |text|
    decreases x, 3
  {
    var head := TreeTokens(x);
    SpacedSplit(head, [[c]] + more, gaps);
    AllBlankSlices(gaps, |head|);
    assert text == Spaced(head, gaps[..|head|]) + after;
    SpacedStops([c], more, gaps[|head|..], rest);
    TreeReads(x, gaps[..|head|], after, stod);
    ReadValueSkips(text, stod);
  }

  // One round of the array loop: an item, then a comma or the closing bracket.
  lemma {:induction false} ItemRound(x: Tree, c: Byte, more: seq<Bytes>, gaps: seq<Bytes>, rest: Bytes,
                                     text: Bytes, left: Bytes, acc: seq<Value>, v: Value, stod: Stod)
    requires Legal(x) && (c == COMMA || Closes(c)) && v == Meaning(x, stod)
    requires |gaps| == |TreeTokens(x)| + 1 + |more| && AllBlank(gaps)
    requires text == Spaced(TreeTokens(x) + ([[c]] + more), gaps) + rest
    requires left == Spaced(more, gaps[|TreeTokens(x)| + 1..]) + rest
    ensures |left| < |text|
    ensures ArrayLoop(text, acc, stod)
         == if c == COMMA then ArrayLoop(left, acc + [v], stod) else Parsed(Arr(acc + [v]), left)
    decreases x, 4
  {
    var k := |TreeTokens(x)|;
    var after := Spaced([[c]] + more, gaps[k..]) + rest;
    ItemReads(x, c, more, gaps, rest, text, after, stod);
    BehindItem(c, more, gaps, k, rest, after);
    ItemCloses(text, acc, v, after, c, left, stod);
  }

  lemma ItemCloses(text: Bytes, acc: seq<Value>, v: Value, after: Bytes, c: Byte, left: Bytes, stod: Stod)
    requires ReadValue(SkipSpace(text), stod) == Parsed(v, after)
    requires Peek(SkipSpace(after)) == c && Drop1(SkipSpace(after)) == left && |left| < |SkipSpace(after)|
    ensures |left| < |text|
    ensures ArrayLoop(text, acc, stod)
         == if c == COMMA then ArrayLoop(left, acc + [v], stod) else Parsed(Arr(acc + [v]), left)
  {
    ArrayLoopStep(text, acc, v, after, stod);
  }

  // Behind the first k tokens stands c, and more behind it.
  lemma BehindItem(c: Byte, more: seq<Bytes>, gaps: seq<Bytes>, k: nat, rest: Bytes, after: Bytes)
    requires !IsSpace(c) && |gaps| == k + 1 + |more| && AllBlank(gaps)
    requires after == Spaced([[c]] + more, gaps[k..]) + rest
    ensures Peek(SkipSpace(after)) == c && Drop1(SkipSpace(after)) == Spaced(more, gaps[k + 1..]) + rest
    ensures |Spaced(more, gaps[k + 1..]) + rest| < |SkipSpace(after)|
  {
    AllBlankSlices(gaps, k);
    assert gaps[k..][1..] == gaps[k + 1..];
    NextToken(c, [[c]] + more, more, gaps[k..], rest);
  }

  lemma {:induction false} ItemsRead(xs: seq<Tree>, close: Byte, ts: seq<Bytes>, gaps: seq<Bytes>, rest: Bytes,
                                     acc: seq<Value>, stod: Stod)
    requires Closes(close) && xs != [] && forall i :: 0 <= i < |xs| ==> Legal(xs[i])
    requires ts == ElementTokens(xs) + [[close]]
    requires |gaps| == |ts| && AllBlank(gaps)
    ensures ArrayLoop(Spaced(ts, gaps) + rest, acc, stod) == Parsed(Arr(acc + ItemMeanings(xs, stod)), rest)
    decreases xs, 4
  {
    var head := TreeTokens(xs[0]);
    ElementTokensSplit(xs, close);
    if |xs| == 1 {
      assert Spaced([], gaps[|head| + 1..]) + rest == rest;
      ItemRound(xs[0], close, [], gaps, rest, Spaced(ts, gaps) + rest, rest, acc, Meaning(xs[0], stod), stod);
      assert ItemMeanings(xs, stod) == [Meaning(xs[0], stod)];
    } else {
      var more := ElementTokens(xs[1..]) + [[close]];
      assert ts == head + ([[44]] + more);
      MoreItems(xs, close, more, gaps, rest, acc, stod);
    }
  }

  lemma {:induction false} MoreItems(xs: seq<Tree>, close: Byte, more: seq<Bytes>, gaps: seq<Bytes>, rest: Bytes,
                                     acc: seq<Value>, stod: Stod)
    requires Closes(close) && |xs| > 1 && forall i :: 0 <= i < |xs| ==> Legal(xs[i])
    requires more == ElementTokens(xs[1..]) + [[close]]
    requires |gaps| == |TreeTokens(xs[0])| + 1 + |more| && AllBlank(gaps)
    ensures ArrayLoop(Spaced(TreeTokens(xs[0]) + ([[44]] + more), gaps) + rest, acc, stod)
         == Parsed(Arr(acc + ItemMeanings(xs, stod)), rest)
    decreases xs, 3
  {
    var n := |TreeTokens(xs[0])| + 1;
    var x := Meaning(xs[0], stod);
    var left := Spaced(more, gaps[n..]) + rest;
    ItemRound(xs[0], COMMA, more, gaps, rest, Spaced(TreeTokens(xs[0]) + ([[44]] + more), gaps) + rest, left, acc, x,
              stod);
    AllBlankSlices(gaps, n);
    ItemsRead(xs[1..], close, more, gaps[n..], rest, acc + [x], stod);
    ItemsGrow(acc, xs, stod);
  }

  lemma ItemsGrow(acc: seq<Value>, xs: seq<Tree>, stod: Stod)
    requires xs != [] && forall i :: 0 <= i < |xs| ==> Legal(xs[i])
    ensures acc + [Meaning(xs[0], stod)] + ItemMeanings(xs[1..], stod) == acc + ItemMeanings(xs, stod)
  {
    Regroup(acc, Meaning(xs[0], stod), ItemMeanings(xs[1..], stod));
  }

  lemma Regroup(acc: seq<Value>, v: Value, vs: seq<Value>)
    ensures acc + [v] + vs == acc + ([v] + vs)
  {}

  // s reads as a name and a value, with the text after left over.
  ghost predicate StartsWithField(s: Bytes, key: Bytes, val: Value, after: Bytes, stod: Stod) {
    var k := ReadString(SkipSpace(s));
    var t := SkipSpace(k.rest);
    k.s == key && Peek(t) == COLON && ReadValue(SkipSpace(Drop1(t)), stod) == Parsed(val, after)
  }

  lemma ObjectLoopStep(s: Bytes, acc: seq<Field>, key: Bytes, val: Value, after: Bytes, stod: Stod)
    requires StartsWithField(s, key, val, after, stod)
    ensures var u := SkipSpace(after);
            var acc' := Insert(acc, key, val);
            |u| <= |s| && ObjectLoop(s, acc, stod)
            == if Peek(u) == COMMA then ObjectLoop(Drop1(u), acc', stod) else Parsed(Obj(acc'), Drop1(u))
  {}

  // A name, its colon and its value, up to what follows the value.
  lemma {:induction false} MemberReads(m: Member, gaps: seq<Bytes>, after: Bytes, stod: Stod)
    requires LegalPieces(m.key) && Legal(m.val) && Stops(after)
    requires |gaps| == |MemberHead(m)| && AllBlank(gaps)
    ensures StartsWithField(Spaced(MemberHead(m), gaps) + after, Meanings(m.key), Meaning(m.val, stod), after, stod)
    decreases m, 3, 0
  {
    var vs := TreeTokens(m.val);
    var colon := [[58]] + vs;
    assert MemberHead(m) == [StringText(m.key)] + colon;
    SkipToToken(StringText(m.key), colon, gaps, after);
    StringReads(m.key, Spaced(colon, gaps[1..]) + after);
    SkipToToken([58], vs, gaps[1..], after);
    var text := Spaced(vs, gaps[1..][1..]) + after;
    assert Drop1([58] + text) == text;
    ReadValueSkips(text, stod);
    TreeReads(m.val, gaps[1..][1..], after, stod);
  }

  // One round of the object loop: a member, then a comma or the closing brace.
  lemma {:induction false} MemberRound(m: Member, c: Byte, more: seq<Bytes>, gaps: seq<Bytes>, rest: Bytes,
                                       text: Bytes, left: Bytes, acc: seq<Field>, next: seq<Field>, stod: Stod)
    requires LegalPieces(m.key) && Legal(m.val) && (c == COMMA || Closes(c))
    requires |gaps| == |MemberHead(m)| + 1 + |more| && AllBlank(gaps)
    requires text == Spaced(MemberHead(m) + ([[c]] + more), gaps) + rest
    requires left == Spaced(more, gaps[|MemberHead(m)| + 1..]) + rest
    requires next == Insert(acc, Meanings(m.key), Meaning(m.val, stod))
    ensures |left| < |text|
    ensures ObjectLoop(text, acc, stod) == if c == COMMA then ObjectLoop(left, next, stod) else Parsed(Obj(next), left)
    decreases m, 4
  {
    var k := |MemberHead(m)|;
    var after := Spaced([[c]] + more, gaps[k..]) + rest;
    MemberLeaves(m, c, more, gaps, rest, text, after, stod);
    BehindItem(c, more, gaps, k, rest, after);
    MemberCloses(text, acc, Meanings(m.key), Meaning(m.val, stod), after, c, left, next, stod);
  }

  lemma MemberCloses(text: Bytes, acc: seq<Field>, key: Bytes, val: Value, after: Bytes, c: Byte, left: Bytes,
                     next: seq<Field>, stod: Stod)
    requires StartsWithField(text, key, val, after, stod) && next == Insert(acc, key, val)
    requires Peek(SkipSpace(after)) == c && Drop1(SkipSpace(after)) == left
    requires |left| < |SkipSpace(after)|
    ensures |left| < |text|
    ensures ObjectLoop(text, acc, stod) == if c == COMMA then ObjectLoop(left, next, stod) else Parsed(Obj(next), left)
  {
    ObjectLoopStep(text, acc, key, val, after, stod);
  }

  lemma {:induction false} MemberLeaves(m: Member, c: Byte, more: seq<Bytes>, gaps: seq<Bytes>, rest: Bytes,
                                        text: Bytes, after: Bytes, stod: Stod)
    requires LegalPieces(m.key) && Legal(m.val) && (c == COMMA || Closes(c))
    requires |gaps| == |MemberHead(m)| + 1 + |more| && AllBlank(gaps)
    requires text == Spaced(MemberHead(m) + ([[c]] + more), gaps) + rest
    requires after == Spaced([[c]] + more, gaps[|MemberHead(m)|..]) + rest
    ensures StartsWithField(text, Meanings(m.key), Meaning(m.val, stod), after, stod)
    decreases m, 3, 1
  {
    var head := MemberHead(m);
    SpacedSplit(head, [[c]] + more, gaps);
    AllBlankSlices(gaps, |head|);
    assert text == Spaced(head, gaps[..|head|]) + after;
    SpacedStops([c], more, gaps[|head|..], rest);
    MemberReads(m, gaps[..|head|], after, stod);
  }

  lemma {:induction false} MembersRead(ms: seq<Member>, close: Byte, ts: seq<Bytes>, gaps: seq<Bytes>, rest: Bytes,
                                       acc: seq<Field>, stod: Stod)
    requires Closes(close) && ms != [] && LegalMembers(ms)
    requires ts == MemberTokens(ms) + [[close]]
    requires |gaps| == |ts| && AllBlank(gaps)
    ensures ObjectLoop(Spaced(ts, gaps) + rest, acc, stod) == Parsed(Obj(Assigned(acc, ms, stod)), rest)
    decreases ms, 4
  {
    var head := MemberHead(ms[0]);
    MemberTokensSplit(ms, close);
    if |ms| == 1 {
      var next := Insert(acc, Meanings(ms[0].key), Meaning(ms[0].val, stod));
      assert Spaced([], gaps[|head| + 1..]) + rest == rest;
      MemberRound(ms[0], close, [], gaps, rest, Spaced(ts, gaps) + rest, rest, acc, next, stod);
      assert ms[1..] == [];
    } else {
      var more := MemberTokens(ms[1..]) + [[close]];
      assert ts == head + ([[44]] + more);
      MoreMembers(ms, close, more, gaps, rest, acc, stod);
    }
  }

  lemma {:induction false} MoreMembers(ms: seq<Member>, close: Byte, more: seq<Bytes>, gaps: seq<Bytes>, rest: Bytes,
                                       acc: seq<Field>, stod: Stod)
    requires Closes(close) && |ms| > 1 && LegalMembers(ms)
    requires more == MemberTokens(ms[1..]) + [[close]]
    requires |gaps| == |MemberHead(ms[0])| + 1 + |more| && AllBlank(gaps)
    ensures ObjectLoop(Spaced(MemberHead(ms[0]) + ([[44]] + more), gaps) + rest, acc, stod)
         == Parsed(Obj(Assigned(acc, ms, stod)), rest)
    decreases ms, 3
  {
    var n := |MemberHead(ms[0])| + 1;
    var next := Insert(acc, Meanings(ms[0].key), Meaning(ms[0].val, stod));
    AllBlankSlices(gaps, n);
    MembersRead(ms[1..], close, more, gaps[n..], rest, next, stod);
    var text := Spaced(MemberHead(ms[0]) + ([[44]] + more), gaps) + rest;
    MemberRound(ms[0], COMMA, more, gaps, rest, text, Spaced(more, gaps[n..]) + rest, acc, next, stod);
  }

  // A JSON text of any shape, spaced in any way, is read as its meaning; what
  // cannot continue a number may follow it and is left.
  lemma TextReads(t: Tree, gaps: seq<Bytes>, rest: Bytes, stod: Stod)
    requires Legal(t) && |gaps| == |TreeTokens(t)| && AllBlank(gaps) && Stops(rest)
    ensures Read(Spaced(TreeTokens(t), gaps) + rest, stod) == Parsed(Meaning(t, stod), rest)
  {
    TreeReads(t, gaps, rest, stod);
    ReadValueSkips(Spaced(TreeTokens(t), gaps) + rest, stod);
  }

  // ---------- texts that are not JSON ----------

  // An escape that RFC 8259 does not know stands for its own byte.
  lemma OtherEscapeReads(ps: seq<Piece>, esc: Byte, qs: seq<Piece>, rest: Bytes)
    requires LegalPieces(ps) && LegalPieces(qs) && esc !in SHORT && esc != 117
    ensures ReadString([34] + (Texts(ps) + ([92, esc] + (Texts(qs) + ([34] + rest)))))
         == ParsedString(Meanings(ps) + [esc] + Meanings(qs), rest)
  {
    var tail := Texts(qs) + ([34] + rest);
    var text := [92, esc] + tail;
    assert Drop1([34] + (Texts(ps) + text)) == Texts(ps) + text;
    PiecesRead(ps, text, []);
    assert [] + Meanings(ps) == Meanings(ps);
    SelfEscapeReads(esc, tail, Meanings(ps));
    PiecesRead(qs, [34] + rest, Meanings(ps) + [esc]);
    StringEnds([34] + rest, rest, Meanings(ps) + [esc] + Meanings(qs));
  }

  lemma SelfEscapeReads(esc: Byte, tail: Bytes, acc: Bytes)
    requires esc !in SHORT && esc != 117
    ensures StringLoop([92, esc] + tail, acc) == StringLoop(tail, acc + [esc])
  {
    var t := ([92, esc] + tail)[1..];
    assert t == [esc] + tail && Drop1(t) == tail;
    assert ReadEscape(t) == ParsedString([esc], tail);
  }

  // A string that is cut off reads as what is there.
  lemma CutStringReads(ps: seq<Piece>)
    requires LegalPieces(ps)
    ensures ReadString([34] + Texts(ps)) == ParsedString(Meanings(ps), [])
  {
    assert Drop1([34] + Texts(ps)) == Texts(ps) == Texts(ps) + [];
    PiecesRead(ps, [], []);
    assert [] + Meanings(ps) == Meanings(ps);
  }

  // A list or record with anything in it ends at the first byte that could not
  // go on: no bracket is missed.
  lemma ListClosedBy(xs: seq<Tree>, close: Byte, inner: seq<Bytes>, gaps: seq<Bytes>, rest: Bytes, stod: Stod)
    requires Closes(close) && xs != [] && (forall i :: 0 <= i < |xs| ==> Legal(xs[i]))
    requires inner == ElementTokens(xs) + [[close]] && |gaps| == 1 + |inner| && AllBlank(gaps)
    ensures ReadValue(Spaced([[91]] + inner, gaps) + rest, stod) == Parsed(Arr(ItemMeanings(xs, stod)), rest)
  {
    var text := Spaced(inner, gaps[1..]) + rest;
    OpenBracket(LBRACKET, inner, gaps, rest, text, stod);
    ItemsInside(xs, close, inner, gaps[1..], rest, text, stod);
  }

  lemma RecordClosedBy(ms: seq<Member>, close: Byte, inner: seq<Bytes>, gaps: seq<Bytes>, rest: Bytes, stod: Stod)
    requires Closes(close) && ms != [] && LegalMembers(ms)
    requires inner == MemberTokens(ms) + [[close]] && |gaps| == 1 + |inner| && AllBlank(gaps)
    ensures ReadValue(Spaced([[123]] + inner, gaps) + rest, stod) == Parsed(Obj(Assigned([], ms, stod)), rest)
  {
    var text := Spaced(inner, gaps[1..]) + rest;
    OpenBracket(LBRACE, inner, gaps, rest, text, stod);
    MembersInside(ms, close, inner, gaps[1..], rest, text, stod);
  }
}
