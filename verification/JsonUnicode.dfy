// The \uXXXX escapes of backend/include/common/json.h over the whole basic plane.
module JsonUnicode {
  import opened JsonValue
  import opened JsonParser
  import opened JsonGrammar
  import opened JsonReads

  // Reading the lead byte's and the continuation bytes' payload bits back.
  function Decode(b: Bytes): int {
    if |b| == 1 then b[0]
    else if |b| == 2 then (b[0] as int - 0xC0) * 64 + (b[1] as int - 0x80)
    else if |b| == 3 then (b[0] as int - 0xE0) * 4096 + (b[1] as int - 0x80) * 64 + (b[2] as int - 0x80)
    else -1
  }

  predicate Continuation(c: Byte) { 0x80 <= c <= 0xBF }

  // One character in the syntax of section 4 of RFC 3629.
  predicate IsCharacter(b: Bytes) {
    || (|b| == 1 && b[0] <= 0x7F)
    || (|b| == 2 && 0xC2 <= b[0] <= 0xDF && Continuation(b[1]))
    || (|b| == 3 && Continuation(b[2])
        && ((b[0] == 0xE0 && 0xA0 <= b[1] <= 0xBF) || (0xE1 <= b[0] <= 0xEC && Continuation(b[1]))
            || (b[0] == 0xED && 0x80 <= b[1] <= 0x9F) || (0xEE <= b[0] <= 0xEF && Continuation(b[1]))))
    || (|b| == 4 && Continuation(b[2]) && Continuation(b[3])
        && ((b[0] == 0xF0 && 0x90 <= b[1] <= 0xBF) || (0xF1 <= b[0] <= 0xF3 && Continuation(b[1]))
            || (b[0] == 0xF4 && 0x80 <= b[1] <= 0x8F)))
  }

  // The length a lead byte announces.
  function Width(lead: Byte): (n: nat)
    ensures 1 <= n <= 4
  {
    if lead < 0x80 then 1 else if lead < 0xE0 then 2 else if lead < 0xF0 then 3 else 4
  }

  // A whole byte string in UTF-8.
  predicate IsUtf8(b: Bytes)
    decreases |b|
  {
    b == [] || (Width(b[0]) <= |b| && IsCharacter(b[..Width(b[0])]) && IsUtf8(b[Width(b[0])..]))
  }

  predicate Surrogate(cp: int) { 0xD800 <= cp <= 0xDFFF }

  // Every code point of the basic plane is encoded so that it can be read back;
  // the bytes are UTF-8 exactly when it is not a surrogate.
  lemma Utf8Exact(cp: int)
    requires 0 <= cp < 0x10000
    ensures Decode(Utf8(cp)) == cp
    ensures IsCharacter(Utf8(cp)) <==> !Surrogate(cp)
  {
    if cp >= 0x800 {
      LongCode(cp);
    } else if cp >= 0x80 {
      MiddleCode(cp);
    }
  }

  lemma LongCode(cp: int)
    requires 0x800 <= cp < 0x10000
    ensures Decode(Utf8(cp)) == cp && (IsCharacter(Utf8(cp)) <==> !Surrogate(cp))
  {
    Sextets(cp);
    var high, middle, low := cp / 4096, cp / 64 % 64, cp % 64;
    assert Utf8(cp) == [0xE0 + high, 0x80 + middle, 0x80 + low];
    ThreeBytes(cp, high, middle, low);
  }

  lemma MiddleCode(cp: int)
    requires 0x80 <= cp < 0x800
    ensures Decode(Utf8(cp)) == cp && IsCharacter(Utf8(cp))
  {
    var high, low := cp / 64, cp % 64;
    assert Utf8(cp) == [0xC0 + high, 0x80 + low];
    TwoBytes(cp, high, low);
  }

  lemma Sextets(cp: int)
    requires 0 <= cp < 0x10000
    ensures cp == cp / 4096 * 4096 + cp / 64 % 64 * 64 + cp % 64 && cp / 4096 < 16
  {
    assert cp / 64 / 64 == cp / 4096;
  }

  lemma ThreeBytes(cp: int, high: int, middle: int, low: int)
    requires 0x800 <= cp < 0x10000 && cp == high * 4096 + middle * 64 + low
    requires 0 <= high < 16 && 0 <= middle < 64 && 0 <= low < 64
    ensures var b: Bytes := [0xE0 + high, 0x80 + middle, 0x80 + low];
            Decode(b) == cp && (IsCharacter(b) <==> !Surrogate(cp))
  {}

  lemma TwoBytes(cp: int, high: int, low: int)
    requires 0x80 <= cp < 0x800 && cp == high * 64 + low && 0 <= low < 64
    ensures 2 <= high < 32
    ensures var b: Bytes := [0xC0 + high, 0x80 + low]; Decode(b) == cp && IsCharacter(b)
  {}

  lemma {:induction false} Utf8Appends(x: Bytes, y: Bytes)
    requires IsUtf8(x)
    ensures IsUtf8(x + y) <==> IsUtf8(y)
    decreases |x|
  {
    if x == [] {
      assert x + y == y;
    } else {
      var n := Width(x[0]);
      Utf8Appends(x[n..], y);
      assert (x + y)[..n] == x[..n] && (x + y)[n..] == x[n..] + y;
    }
  }

  // What follows an encoded code point decides, unless it is a surrogate.
  lemma Utf8Follows(cp: int, y: Bytes)
    requires 0 <= cp < 0x10000
    ensures IsUtf8(Utf8(cp) + y) <==> !Surrogate(cp) && IsUtf8(y)
  {
    Utf8Exact(cp);
    var x := Utf8(cp);
    var n := |x|;
    LeadWidth(cp);
    assert (x + y)[..n] == x && (x + y)[n..] == y;
  }

  lemma LeadWidth(cp: int)
    requires 0 <= cp < 0x10000
    ensures Width(Utf8(cp)[0]) == |Utf8(cp)|
  {}

  // ---------- strings with escapes ----------

  lemma NumberRange(hex: Bytes)
    requires FourDigits(hex)
    ensures 0 <= Number(hex) < 0x10000
  {
    assert forall i :: 0 <= i < 4 ==> 0 <= HexDigitValue(hex[i]) < 16;
  }

  ghost predicate RawUtf8(ps: seq<Piece>) {
    forall i :: 0 <= i < |ps| && ps[i].Raw? ==> IsUtf8(ps[i].bytes)
  }

  ghost predicate SurrogateFree(ps: seq<Piece>)
    requires LegalPieces(ps)
  {
    forall i :: 0 <= i < |ps| && ps[i].Escaped? ==> !Surrogate(Number(ps[i].hex))
  }

  // What is read is UTF-8 exactly when no escape is a surrogate: the parser
  // joins no pairs.
  lemma {:induction false} EscapesUtf8Exact(ps: seq<Piece>)
    requires LegalPieces(ps) && RawUtf8(ps)
    ensures IsUtf8(Meanings(ps)) <==> SurrogateFree(ps)
    decreases |ps|
  {
    if ps != [] {
      EscapesUtf8Exact(ps[1..]);
      PieceUtf8(ps[0], Meanings(ps[1..]));
      assert SurrogateFree(ps) <==> SurrogateFree(ps[1..]) && (ps[0].Escaped? ==> !Surrogate(Number(ps[0].hex)));
    }
  }

  lemma PieceUtf8(p: Piece, y: Bytes)
    requires LegalPiece(p) && (p.Raw? ==> IsUtf8(p.bytes))
    ensures IsUtf8(PieceMeaning(p) + y) <==> (p.Escaped? ==> !Surrogate(Number(p.hex))) && IsUtf8(y)
  {
    match p {
      case Raw(b) => Utf8Appends(b, y);
      case Short(esc) => Utf8Follows(SHORT[esc], y);
      case Escaped(hex) =>
        NumberRange(hex);
        Utf8Follows(Number(hex), y);
    }
  }

  // A surrogate pair inside a string becomes six bytes, and the whole string
  // is not UTF-8, whatever surrounds the pair.
  lemma SurrogatesStayApart(before: Bytes, high: Bytes, low: Bytes, after: Bytes, rest: Bytes)
    requires FourDigits(high) && 0xD800 <= Number(high) <= 0xDBFF
    requires FourDigits(low) && 0xDC00 <= Number(low) <= 0xDFFF && IsUtf8(before) && IsUtf8(after)
    requires LegalPiece(Raw(before)) && LegalPiece(Raw(after))
    ensures var pair := Utf8(Number(high)) + Utf8(Number(low));
            && |pair| == 6 && !IsUtf8(before + (pair + after))
            && ReadString(StringText([Raw(before), Escaped(high), Escaped(low), Raw(after)]) + rest)
               == ParsedString(before + (pair + after), rest)
  {
    var ps := [Raw(before), Escaped(high), Escaped(low), Raw(after)];
    StringReads(ps, rest);
    PairIsSurrogate(ps);
    PairMeaning(before, high, low, after);
    Assoc(Utf8(Number(high)), Utf8(Number(low)), after);
  }

  lemma PairIsSurrogate(ps: seq<Piece>)
    requires LegalPieces(ps) && RawUtf8(ps) && |ps| > 1 && ps[1].Escaped? && Surrogate(Number(ps[1].hex))
    ensures !IsUtf8(Meanings(ps))
  {
    EscapesUtf8Exact(ps);
  }

  lemma MeaningsCons(p: Piece, ps: seq<Piece>)
    requires LegalPiece(p) && LegalPieces(ps)
    ensures LegalPieces([p] + ps) && Meanings([p] + ps) == PieceMeaning(p) + Meanings(ps)
  {
    assert ([p] + ps)[1..] == ps;
  }

  lemma PairMeaning(before: Bytes, high: Bytes, low: Bytes, after: Bytes)
    requires FourDigits(high) && FourDigits(low) && LegalPiece(Raw(before)) && LegalPiece(Raw(after))
    ensures Meanings([Raw(before), Escaped(high), Escaped(low), Raw(after)])
         == before + (Utf8(Number(high)) + (Utf8(Number(low)) + after))
  {
    MeaningsCons(Raw(after), []);
    MeaningsCons(Escaped(low), [Raw(after)]);
    MeaningsCons(Escaped(high), [Escaped(low), Raw(after)]);
    MeaningsCons(Raw(before), [Escaped(high), Escaped(low), Raw(after)]);
    assert after + [] == after;
    assert [Raw(before)] + [Escaped(high), Escaped(low), Raw(after)]
        == [Raw(before), Escaped(high), Escaped(low), Raw(after)];
  }
}
