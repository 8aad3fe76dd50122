/** JSON texts and integers as Python's `json` module writes and reads them (sections 6 and 7 of
    RFC 8259). A Python string is a sequence of code points, surrogates included; written text is
    ASCII. */
module JsonText {
  import opened Common
  import Ids

  type Text = seq<int>

  predicate IsText(t: Text) {
    forall k :: 0 <= k < |t| ==> 0 <= t[k] < 0x11_0000
  }

  predicate High(u: int) { 0xD800 <= u < 0xDC00 }

  predicate Low(u: int) { 0xDC00 <= u < 0xE000 }

  predicate IsUnit(u: int) { 0 <= u < 0x1_0000 }

  // ---- code points and UTF-16 units

  /** A code point beyond the basic plane is written as two units. */
  function Units(t: Text): seq<int> {
    if t == [] then []
    else if t[0] < 0x1_0000 then [t[0]] + Units(t[1..])
    else [0xD800 + (t[0] - 0x1_0000) / 0x400, 0xDC00 + (t[0] - 0x1_0000) % 0x400] + Units(t[1..])
  }

  function Joined(high: int, low: int): int {
    0x1_0000 + (high - 0xD800) * 0x400 + (low - 0xDC00)
  }

  /** Reading joins a high unit with a low one after it. */
  function FromUnits(us: seq<int>): Text {
    if us == [] then []
    else if |us| >= 2 && High(us[0]) && Low(us[1]) then [Joined(us[0], us[1])] + FromUnits(us[2..])
    else [us[0]] + FromUnits(us[1..])
  }

  /** A high surrogate directly before a low one. */
  predicate HasPair(t: Text) {
    exists k :: 0 <= k < |t| - 1 && High(t[k]) && Low(t[k + 1])
  }

  lemma {:induction false} UnitsAreUnits(t: Text)
    requires IsText(t)
    ensures forall k :: 0 <= k < |Units(t)| ==> IsUnit(Units(t)[k])
  {
    if t != [] {
      UnitsAreUnits(t[1..]);
    }
  }

  lemma FirstUnit(t: Text)
    requires IsText(t) && t != []
    ensures Units(t) != [] && (Low(Units(t)[0]) <==> Low(t[0]))
  {
  }

  lemma {:induction false} Unpaired(t: Text)
    requires IsText(t) && !HasPair(t)
    ensures FromUnits(Units(t)) == t
  {
    if t != [] {
      var rest := t[1..];
      forall k | 0 <= k < |rest| - 1 ensures !(High(rest[k]) && Low(rest[k + 1])) {
        assert !(High(t[k + 1]) && Low(t[k + 2]));
      }
      Unpaired(rest);
      var us := Units(t);
      if t[0] < 0x1_0000 {
        assert us[1..] == Units(rest);
        if rest != [] {
          FirstUnit(rest);
          assert High(t[0]) ==> !Low(t[1]);
        }
      } else {
        assert us[2..] == Units(rest);
        assert Joined(us[0], us[1]) == t[0];
      }
    }
  }

  /** Reading back never lengthens a text, and shortens one that holds a pair. */
  lemma {:induction false} PairedShrinks(t: Text)
    requires IsText(t)
    ensures |FromUnits(Units(t))| <= |t|
    ensures HasPair(t) ==> |FromUnits(Units(t))| < |t|
    decreases |t|
  {
    if t != [] {
      var us, rest := Units(t), t[1..];
      PairedShrinks(rest);
      if t[0] >= 0x1_0000 {
        assert us[2..] == Units(rest);
      } else if rest != [] && High(t[0]) && Low(rest[0]) {
        FirstUnit(rest);
        assert us[1..] == Units(rest) && us[1] == rest[0] && Units(rest)[1..] == Units(rest[1..]);
        assert us[2..] == Units(rest[1..]);
        PairedShrinks(rest[1..]);
      } else {
        assert us[1..] == Units(rest);
        if rest != [] {
          FirstUnit(rest);
        }
      }
      if HasPair(t) && !(rest != [] && High(t[0]) && Low(rest[0])) {
        var k :| 0 <= k < |t| - 1 && High(t[k]) && Low(t[k + 1]);
        assert High(rest[k - 1]) && Low(rest[k]);
      }
    }
  }

  /** A text survives exactly when it holds no such pair. */
  lemma SurvivesIff(t: Text)
    requires IsText(t)
    ensures FromUnits(Units(t)) == t <==> !HasPair(t)
  {
    PairedShrinks(t);
    if !HasPair(t) {
      Unpaired(t);
    }
  }

  // ---- escaping

  function HexDigit(d: int): char
    requires 0 <= d < 16
  {
    "0123456789abcdef"[d]
  }

  function HexValue(c: char): Option<int> {
    if '0' <= c <= '9' then Some(c as int - 48)
    else if 'a' <= c <= 'f' then Some(c as int - 87)
    else if 'A' <= c <= 'F' then Some(c as int - 55)
    else None
  }

  function Hex4(u: int): string
    requires IsUnit(u)
  {
    [HexDigit(u / 4096), HexDigit(u / 256 % 16), HexDigit(u / 16 % 16), HexDigit(u % 16)]
  }

  /** The two-character escapes: what follows the backslash. */
  function ShortEscape(u: int): Option<char> {
    if u == 34 then Some('"') else if u == 92 then Some('\\')
    else if u == 8 then Some('b') else if u == 12 then Some('f') else if u == 10 then Some('n')
    else if u == 13 then Some('r') else if u == 9 then Some('t') else None
  }

  function OfShortEscape(c: char): Option<int> {
    if c == '"' then Some(34) else if c == '\\' then Some(92) else if c == '/' then Some(47)
    else if c == 'b' then Some(8) else if c == 'f' then Some(12) else if c == 'n' then Some(10)
    else if c == 'r' then Some(13) else if c == 't' then Some(9) else None
  }

  function EscapeUnit(u: int): (s: string)
    requires IsUnit(u)
    ensures |s| > 0 && s[0] != '"'
  {
    if ShortEscape(u).Some? then ['\\', ShortEscape(u).value]
    else if 32 <= u <= 126 then [u as char]
    else ['\\', 'u'] + Hex4(u)
  }

  function Escape(us: seq<int>): string
    requires forall k :: 0 <= k < |us| ==> IsUnit(us[k])
  {
    if us == [] then "" else EscapeUnit(us[0]) + Escape(us[1..])
  }

  // ---- reading

  function FromHex(a: int, b: int, c: int, d: int): int {
    ((a * 16 + b) * 16 + c) * 16 + d
  }

  function ReadHex4(s: string): Option<int>
    requires |s| >= 4
  {
    var a, b, c, d := HexValue(s[0]), HexValue(s[1]), HexValue(s[2]), HexValue(s[3]);
    if a.Some? && b.Some? && c.Some? && d.Some?
    then Some(FromHex(a.value, b.value, c.value, d.value)) else None
  }

  /** One unit and how many characters it takes. */
  function ReadUnit(s: string): (r: Option<(int, nat)>)
    requires |s| > 0
    ensures r.Some? ==> 0 < r.value.1 <= |s|
  {
    if s[0] != '\\' then
      if ' ' <= s[0] <= '~' then Some((s[0] as int, 1)) else None
    else if |s| >= 2 && OfShortEscape(s[1]).Some? then Some((OfShortEscape(s[1]).value, 2))
    else if |s| >= 6 && s[1] == 'u' && ReadHex4(s[2..]).Some? then Some((ReadHex4(s[2..]).value, 6))
    else None
  }

  /** The units up to the closing quote, and what follows it. */
  function ReadUnits(s: string): Option<(seq<int>, string)>
    decreases |s|
  {
    if s == "" then None
    else if s[0] == '"' then Some(([], s[1..]))
    else
      var u := ReadUnit(s);
      if u.None? then None
      else
        var more := ReadUnits(s[u.value.1..]);
        if more.None? then None else Some(([u.value.0] + more.value.0, more.value.1))
  }

  lemma HexDigitRead(d: int)
    requires 0 <= d < 16
    ensures HexValue(HexDigit(d)) == Some(d)
  {
  }

  lemma HexParts(u: int)
    requires IsUnit(u)
    ensures u / 4096 < 16 && FromHex(u / 4096, u / 256 % 16, u / 16 % 16, u % 16) == u
  {
    assert u / 16 == 16 * (u / 256) + u / 16 % 16;
    assert u / 256 == 16 * (u / 4096) + u / 256 % 16;
  }

  lemma DigitsRead(a: int, b: int, c: int, d: int, rest: string)
    requires 0 <= a < 16 && 0 <= b < 16 && 0 <= c < 16 && 0 <= d < 16
    ensures ReadHex4([HexDigit(a), HexDigit(b), HexDigit(c), HexDigit(d)] + rest) == Some(FromHex(a, b, c, d))
  {
    HexDigitRead(a);
    HexDigitRead(b);
    HexDigitRead(c);
    HexDigitRead(d);
  }

  lemma HexRead(u: int, rest: string)
    requires IsUnit(u)
    ensures ReadHex4(Hex4(u) + rest) == Some(u)
  {
    HexParts(u);
    DigitsRead(u / 4096, u / 256 % 16, u / 16 % 16, u % 16, rest);
  }

  lemma ShortRead(c: char, u: int, rest: string)
    requires OfShortEscape(c) == Some(u)
    ensures ReadUnit(['\\', c] + rest) == Some((u, 2))
  {
  }

  lemma ShortInverse(u: int)
    requires ShortEscape(u).Some?
    ensures OfShortEscape(ShortEscape(u).value) == Some(u)
  {
  }

  lemma PlainRead(c: char, rest: string)
    requires ' ' <= c <= '~' && c != '\\'
    ensures ReadUnit([c] + rest) == Some((c as int, 1))
  {
  }

  lemma LongRead(hex: string, u: int, rest: string)
    requires |hex| == 4 && ReadHex4(hex + rest) == Some(u)
    ensures ReadUnit((['\\', 'u'] + hex) + rest) == Some((u, 6))
  {
    assert ((['\\', 'u'] + hex) + rest)[2..] == hex + rest;
  }

  lemma UnitRead(u: int, rest: string)
    requires IsUnit(u)
    ensures ReadUnit(EscapeUnit(u) + rest) == Some((u, |EscapeUnit(u)|))
  {
    if ShortEscape(u).Some? {
      ShortInverse(u);
      ShortRead(ShortEscape(u).value, u, rest);
    } else if 32 <= u <= 126 {
      PlainRead(u as char, rest);
    } else {
      HexRead(u, rest);
      LongRead(Hex4(u), u, rest);
    }
  }

  lemma ReadStep(e: string, tail: string, u: int, us: seq<int>, rest: string)
    requires |e| > 0 && e[0] != '"' && ReadUnit(e + tail) == Some((u, |e|)) && ReadUnits(tail) == Some((us, rest))
    ensures ReadUnits(e + tail) == Some(([u] + us, rest))
  {
    assert (e + tail)[|e|..] == tail;
  }

  lemma Regroup(a: string, b: string, c: string)
    ensures (a + b) + c == a + (b + c)
  {
  }

  /** Escaped units read back, up to the closing quote. */
  lemma {:induction false} EscapedReads(us: seq<int>, rest: string)
    requires forall k :: 0 <= k < |us| ==> IsUnit(us[k])
    ensures ReadUnits(Escape(us) + ("\"" + rest)) == Some((us, rest))
    decreases |us|
  {
    var close := "\"" + rest;
    if us == [] {
      assert Escape(us) + close == close;
      assert close[0] == '"' && close[1..] == rest;
    } else {
      var e, tail := EscapeUnit(us[0]), Escape(us[1..]);
      EscapedReads(us[1..], rest);
      UnitRead(us[0], tail + close);
      ReadStep(e, tail + close, us[0], us[1..], rest);
      Regroup(e, tail, close);
      assert us == [us[0]] + us[1..];
    }
  }

  // ---- integers

  function WriteInt(n: int): string {
    if n < 0 then "-" + Ids.Decimal(-n) else Ids.Decimal(n)
  }

  function DigitOf(c: char): Option<int> {
    if '0' <= c <= '9' then Some(c as int - 48) else None
  }

  /** How many digits the text begins with. */
  function DigitRun(s: string): (k: nat)
    ensures k <= |s|
    ensures forall i :: 0 <= i < k ==> DigitOf(s[i]).Some?
  {
    if s != "" && DigitOf(s[0]).Some? then 1 + DigitRun(s[1..]) else 0
  }

  function Value(digits: string): nat
    requires forall i :: 0 <= i < |digits| ==> DigitOf(digits[i]).Some?
  {
    if digits == "" then 0 else 10 * Value(digits[..|digits| - 1]) + DigitOf(digits[|digits| - 1]).value
  }

  /** Digits without a leading zero, and what follows them. */
  function ReadNat(s: string): Option<(int, string)> {
    var k := DigitRun(s);
    if k == 0 || (s[0] == '0' && k > 1) then None else Some((Value(s[..k]), s[k..]))
  }

  function ReadInt(s: string): Option<(int, string)> {
    if s != "" && s[0] == '-' then
      var r := ReadNat(s[1..]);
      if r.None? then None else Some((-r.value.0, r.value.1))
    else
      var r := ReadNat(s);
      if r.None? then None else Some((r.value.0, r.value.1))
  }

  lemma DigitRead(d: nat)
    requires d < 10
    ensures DigitOf(Ids.Digit(d)) == Some(d)
  {
  }

  lemma {:induction false} DecimalDigits(n: nat)
    ensures var s := Ids.Decimal(n);
      && |s| > 0 && (forall i :: 0 <= i < |s| ==> DigitOf(s[i]).Some?) && Value(s) == n
      && (s[0] == '0' ==> n == 0 && |s| == 1)
  {
    var s := Ids.Decimal(n);
    DigitRead(n % 10);
    if n >= 10 {
      DecimalDigits(n / 10);
      assert s[..|s| - 1] == Ids.Decimal(n / 10);
    } else {
      assert s[..0] == "";
    }
  }

  predicate StartsDigit(s: string) {
    s != "" && DigitOf(s[0]).Some?
  }

  lemma {:induction false} RunStops(digits: string, rest: string)
    requires forall i :: 0 <= i < |digits| ==> DigitOf(digits[i]).Some?
    requires !StartsDigit(rest)
    ensures DigitRun(digits + rest) == |digits|
  {
    if digits == "" {
      assert digits + rest == rest;
    } else {
      assert (digits + rest)[1..] == digits[1..] + rest;
      RunStops(digits[1..], rest);
    }
  }

  /** A written integer reads back, when no digit follows it. */
  lemma IntReads(n: int, rest: string)
    requires !StartsDigit(rest)
    ensures ReadInt(WriteInt(n) + rest) == Some((n, rest))
  {
    var m: nat := if n < 0 then -n else n;
    var digits := Ids.Decimal(m);
    DecimalDigits(m);
    RunStops(digits, rest);
    assert (digits + rest)[..|digits|] == digits && (digits + rest)[|digits|..] == rest;
    assert ReadNat(digits + rest) == Some((m, rest));
    if n < 0 {
      assert WriteInt(n) + rest == "-" + (digits + rest);
      assert ("-" + (digits + rest))[1..] == digits + rest;
    } else {
      assert (digits + rest)[0] == digits[0];
    }
  }
}
