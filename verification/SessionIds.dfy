// Session identifiers of backend/src/vr_assault/vr_assault_engine.cpp and
// backend/src/user_session/user_session_manager.cpp: sixteen hexadecimal digits
// of a 64-bit counter, then a random tail.
module SessionIds {

  const COUNTER_LIMIT: nat := 0x1_0000_0000_0000_0000
  const WORD: nat := 0x1_0000_0000
  const DIGITS: string := "0123456789abcdef"

  function Power(width: nat): nat {
    if width == 0 then 1 else 16 * Power(width - 1)
  }

  // n in exactly width hexadecimal digits, zero-filled.
  function Hex(n: nat, width: nat): (s: string)
    ensures |s| == width
  {
    if width == 0 then "" else Hex(n / 16, width - 1) + [DIGITS[n % 16]]
  }

  function DigitValue(c: char): nat {
    if '0' <= c <= '9' then (c - '0') as nat
    else if 'a' <= c <= 'f' then (c - 'a') as nat + 10
    else 0
  }

  function Value(s: string): nat {
    if s == "" then 0 else Value(s[..|s| - 1]) * 16 + DigitValue(s[|s| - 1])
  }

  function SessionId(issued: nat, tail: string): (id: string)
    ensures |id| >= 16
  {
    var counter := issued % COUNTER_LIMIT;
    Hex(counter / WORD, 8) + Hex(counter % WORD, 8) + "-" + tail
  }

  // The counter an identifier was made from.
  function Counter(id: string): nat {
    if |id| < 16 then 0 else Value(id[..8]) * WORD + Value(id[8..16])
  }

  lemma {:induction false} HexValue(n: nat, width: nat)
    requires n < Power(width)
    ensures Value(Hex(n, width)) == n
  {
    if width > 0 {
      var high, low := n / 16, n % 16;
      Sixteenth(n, Power(width - 1), high, low);
      HexValue(high, width - 1);
      LastDigit(Hex(high, width - 1), low);
    }
  }

  lemma Sixteenth(n: nat, p: nat, high: nat, low: nat)
    requires n < 16 * p && high == n / 16 && low == n % 16
    ensures high < p && low < 16 && n == high * 16 + low
  {}

  lemma LastDigit(s: string, low: nat)
    requires low < 16
    ensures Value(s + [DIGITS[low]]) == Value(s) * 16 + low
  {
    var t := s + [DIGITS[low]];
    assert t[..|t| - 1] == s;
  }

  lemma EightDigits()
    ensures Power(8) == WORD
  {
    assert Power(2) == 0x100;
    assert Power(4) == 0x1_0000;
    assert Power(6) == 0x100_0000;
  }

  // Until the 64-bit counter wraps, the identifier gives the counter back, so
  // no two calls ever return the same identifier whatever the random tails.
  lemma CounterOfId(issued: nat, tail: string)
    requires issued < COUNTER_LIMIT
    ensures Counter(SessionId(issued, tail)) == issued
  {
    Halves(issued);
    CounterOfHalves(issued / WORD, issued % WORD, tail);
  }

  lemma Halves(issued: nat)
    requires issued < COUNTER_LIMIT
    ensures issued % COUNTER_LIMIT == issued && issued / WORD < WORD && issued % WORD < WORD
    ensures issued / WORD * WORD + issued % WORD == issued
  {}

  lemma CounterOfHalves(high: nat, low: nat, tail: string)
    requires high < WORD && low < WORD
    ensures Counter(Hex(high, 8) + Hex(low, 8) + "-" + tail) == high * WORD + low
  {
    var id := Hex(high, 8) + Hex(low, 8) + "-" + tail;
    EightDigits();
    HexValue(high, 8);
    HexValue(low, 8);
    assert id[..8] == Hex(high, 8) && id[8..16] == Hex(low, 8);
  }

  lemma IdsDistinct(first: nat, firstTail: string, second: nat, secondTail: string)
    requires first < COUNTER_LIMIT && second < COUNTER_LIMIT && first != second
    ensures SessionId(first, firstTail) != SessionId(second, secondTail)
  {
    CounterOfId(first, firstTail);
    CounterOfId(second, secondTail);
  }
}
