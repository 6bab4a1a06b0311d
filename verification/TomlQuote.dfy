/** `EasyTierConfigBuilder.Quote` (src/EasyTierHost.Core/Configuration.cs) against the
    basic strings of TOML v1.0.0 (section "String"). Text is a sequence of UTF-16 units,
    as in the source. */
module TomlQuote {
  import opened Options
  import opened TextUnits

  const QUOTE: Unit := 0x22
  const BACKSLASH: Unit := 0x5c

  // -------------------------------------------------------------- quoting

  function HexUnit(n: int): Unit
    requires 0 <= n < 16
  {
    if n < 10 then 0x30 + n else 0x41 + (n - 10)
  }

  /** `ToString("X4")` */
  function Hex4(c: Unit): (r: seq<Unit>)
    ensures |r| == 4
  {
    [HexUnit(c / 0x1000), HexUnit(c / 0x100 % 16), HexUnit(c / 16 % 16), HexUnit(c % 16)]
  }

  predicate IsControl(c: Unit) {
    c < 0x20 || c == 0x7f
  }

  function Escape(c: Unit): (r: seq<Unit>)
    ensures r != []
  {
    if c == QUOTE then [BACKSLASH, QUOTE]
    else if c == BACKSLASH then [BACKSLASH, BACKSLASH]
    else if c == 0x0a then [BACKSLASH, 0x6e]
    else if c == 0x0d then [BACKSLASH, 0x72]
    else if c == 0x09 then [BACKSLASH, 0x74]
    else if IsControl(c) then [BACKSLASH, 0x75] + Hex4(c)
    else [c]
  }

  function EscapeAll(text: seq<Unit>): seq<Unit> {
    if text == [] then [] else Escape(text[0]) + EscapeAll(text[1..])
  }

  method Quote(text: seq<Unit>) returns (r: seq<Unit>)
    ensures r == [QUOTE] + EscapeAll(text) + [QUOTE]
    ensures forall i :: 0 <= i < |r| ==> 0x20 <= r[i] && r[i] != 0x7f
  {
    hide Escape, EscapeAll;
    r := [QUOTE];
    EscapeAllEnd(text);
    for i := 0 to |text|
      invariant [QUOTE] + EscapeAll(text) == r + EscapeAll(text[i..])
    {
      EscapeAllStep(text, i);
      assert r + (Escape(text[i]) + EscapeAll(text[i + 1..])) == r + Escape(text[i]) + EscapeAll(text[i + 1..]);
      r := r + Escape(text[i]);
    }
    EscapeAllEnd(text);
    assert r + [] == r;
    r := r + [QUOTE];
    NoControls(text);
  }

  /** What is quoted holds no control character, not even a tab. */
  lemma {:induction false} NoControls(text: seq<Unit>)
    ensures forall i :: 0 <= i < |EscapeAll(text)| ==> !IsControl(EscapeAll(text)[i])
  {
    if text != [] {
      NoControls(text[1..]);
      assert forall i :: 0 <= i < |Escape(text[0])| ==> !IsControl(Escape(text[0])[i]);
    }
  }

  lemma EscapeAllStep(text: seq<Unit>, i: nat)
    requires i < |text|
    ensures EscapeAll(text[i..]) == Escape(text[i]) + EscapeAll(text[i + 1..])
  {
    assert text[i..][1..] == text[i + 1..];
  }

  lemma EscapeAllEnd(text: seq<Unit>)
    ensures EscapeAll(text[|text|..]) == [] && text[0..] == text
  {
  }

  // -------------------------------------------------------------- scanning

  predicate IsHigh(c: Unit) { 0xd800 <= c < 0xdc00 }
  predicate IsLow(c: Unit) { 0xdc00 <= c < 0xe000 }

  function DigitValue(c: Unit): Option<nat> {
    if 0x30 <= c <= 0x39 then Some(c - 0x30)
    else if 0x41 <= c <= 0x46 then Some(c - 0x41 + 10)
    else if 0x61 <= c <= 0x66 then Some(c - 0x61 + 10)
    else None
  }

  function HexValue(s: seq<Unit>): Option<nat> {
    if s == [] then Some(0)
    else
      var front, last := HexValue(s[..|s| - 1]), DigitValue(s[|s| - 1]);
      if front.None? || last.None? then None else Some(16 * front.value + last.value)
  }

  /** A Unicode scalar value in UTF-16; surrogates are none. */
  function Utf16(n: nat): Option<seq<Unit>> {
    if n < 0xd800 || 0xe000 <= n < 0x1_0000 then Some([n])
    else if 0x1_0000 <= n < 0x11_0000 then
      Some([0xd800 + (n - 0x1_0000) / 0x400, 0xdc00 + (n - 0x1_0000) % 0x400])
    else None
  }

  /** The escape sequence after a backslash: its text and its length. */
  function ReadEscape(s: seq<Unit>): (r: Option<(seq<Unit>, nat)>)
    ensures r.Some? ==> 0 < r.value.1 <= |s|
  {
    if s == [] then None
    else if s[0] == 0x62 then Some(([0x08], 1))
    else if s[0] == 0x74 then Some(([0x09], 1))
    else if s[0] == 0x6e then Some(([0x0a], 1))
    else if s[0] == 0x66 then Some(([0x0c], 1))
    else if s[0] == 0x72 then Some(([0x0d], 1))
    else if s[0] == QUOTE then Some(([QUOTE], 1))
    else if s[0] == BACKSLASH then Some(([BACKSLASH], 1))
    else
      var digits := if s[0] == 0x75 then 4 else if s[0] == 0x55 then 8 else 0;
      if digits == 0 || |s| < 1 + digits then None
      else
        var n := HexValue(s[1..1 + digits]);
        if n.None? then None
        else
          var units := Utf16(n.value);
          if units.None? then None else Some((units.value, 1 + digits))
  }

  /** A basic string after its opening quote: the text, and what follows the closing one. */
  function ScanBody(s: seq<Unit>): Option<(seq<Unit>, seq<Unit>)>
    decreases |s|
  {
    if s == [] then None
    else if s[0] == QUOTE then Some(([], s[1..]))
    else if s[0] == BACKSLASH then
      var e := ReadEscape(s[1..]);
      if e.None? then None else Then(e.value.0, ScanBody(s[1 + e.value.1..]))
    else if IsControl(s[0]) && s[0] != 0x09 then None
    else if IsLow(s[0]) then None
    else if IsHigh(s[0]) then
      if |s| < 2 || !IsLow(s[1]) then None else Then(s[..2], ScanBody(s[2..]))
    else Then(s[..1], ScanBody(s[1..]))
  }

  function Then(front: seq<Unit>, r: Option<(seq<Unit>, seq<Unit>)>): Option<(seq<Unit>, seq<Unit>)> {
    if r.None? then None else Some((front + r.value.0, r.value.1))
  }

  /** The production of basic strings alone: three quotes, which a lexer would take for the start
      of a multi-line string, are here an empty string and one quote. */
  function ScanString(s: seq<Unit>): Option<(seq<Unit>, seq<Unit>)> {
    if s == [] || s[0] != QUOTE then None else ScanBody(s[1..])
  }

  // ------------------------------------------------------------ round trip

  /** Every surrogate is part of a pair. */
  predicate IsUtf16(text: seq<Unit>) {
    if text == [] then true
    else if IsLow(text[0]) then false
    else if IsHigh(text[0]) then |text| >= 2 && IsLow(text[1]) && IsUtf16(text[2..])
    else IsUtf16(text[1..])
  }

  lemma HexDigits(n: int)
    requires 0 <= n < 16
    ensures DigitValue(HexUnit(n)) == Some(n)
  {
  }

  lemma ControlEscape(c: Unit)
    requires IsControl(c)
    ensures HexValue(Hex4(c)) == Some(c)
  {
    var h := Hex4(c);
    var a, b := c / 16 % 16, c % 16;
    HexDigits(0);
    HexDigits(a);
    HexDigits(b);
    assert h[..3][..2][..1][..0] == [];
    assert h[..3][..2][..1] == [h[0]] && h[..3][..2] == [h[0], h[1]] && h[..3] == [h[0], h[1], h[2]];
    assert HexValue([h[0]]) == Some(0);
    assert HexValue([h[0], h[1]]) == Some(0);
    assert HexValue([h[0], h[1], h[2]]) == Some(a);
  }

  /** The escape of one unit that is no surrogate is scanned back to that unit. */
  lemma UnitScans(c: Unit, s: seq<Unit>)
    requires !IsHigh(c) && !IsLow(c)
    ensures ScanBody(Escape(c) + s) == Then([c], ScanBody(s))
  {
    var e := Escape(c);
    var all := e + s;
    if e[0] == BACKSLASH {
      assert all[1..] == e[1..] + s;
      if e[1] == 0x75 {
        ControlEscape(c);
        assert all[1..][1..5] == Hex4(c);
        assert all[6..] == s;
      } else {
        assert all[2..] == s;
      }
    } else {
      assert all[..1] == [c] && all[1..] == s;
    }
  }

  /** A surrogate pair is scanned as it stands. */
  lemma PairScans(high: Unit, low: Unit, s: seq<Unit>)
    requires IsHigh(high) && IsLow(low)
    ensures ScanBody(Escape(high) + (Escape(low) + s)) == Then([high, low], ScanBody(s))
  {
    var all := Escape(high) + (Escape(low) + s);
    assert all == [high, low] + s;
    assert all[..2] == [high, low] && all[2..] == s;
  }

  /** A surrogate without its partner stops the scan. */
  lemma LoneScans(c: Unit, s: seq<Unit>)
    requires IsLow(c) || (IsHigh(c) && (s == [] || !IsLow(s[0])))
    ensures ScanBody(Escape(c) + s) == None
  {
    assert Escape(c) + s == [c] + s;
  }

  /** The first unit of quoted text is a low surrogate only if the text starts with one. */
  lemma FirstUnit(text: seq<Unit>, rest: seq<Unit>)
    ensures var s := EscapeAll(text) + [QUOTE] + rest;
            s != [] && (IsLow(s[0]) <==> text != [] && IsLow(text[0]))
  {
    if text != [] {
      assert (EscapeAll(text) + [QUOTE] + rest)[0] == Escape(text[0])[0];
    }
  }

  /** Scanning what `Quote` wrote stops exactly at the closing quote and yields the text,
      whatever follows, if and only if the text is UTF-16. */
  lemma {:induction false} BodyRoundTrip(text: seq<Unit>, rest: seq<Unit>)
    ensures ScanBody(EscapeAll(text) + [QUOTE] + rest) == if IsUtf16(text) then Some((text, rest)) else None
    decreases |text|
  {
    if text == [] {
      var s := EscapeAll(text) + [QUOTE] + rest;
      assert s == [QUOTE] + rest && s[1..] == rest;
    } else {
      hide ScanBody, Escape;
      var c, tail := text[0], text[1..];
      var t := EscapeAll(tail) + [QUOTE] + rest;
      assert EscapeAll(text) + [QUOTE] + rest == Escape(c) + t;
      FirstUnit(tail, rest);
      if IsHigh(c) && tail != [] && IsLow(tail[0]) {
        var u := EscapeAll(text[2..]) + [QUOTE] + rest;
        assert tail[1..] == text[2..];
        assert t == Escape(tail[0]) + u;
        PairScans(c, tail[0], u);
        BodyRoundTrip(text[2..], rest);
        assert text == [c, tail[0]] + text[2..];
      } else if IsHigh(c) || IsLow(c) {
        LoneScans(c, t);
      } else {
        UnitScans(c, t);
        BodyRoundTrip(tail, rest);
        assert text == [c] + tail;
      }
    }
  }

  lemma QuoteRoundTrip(text: seq<Unit>, rest: seq<Unit>)
    ensures ScanString([QUOTE] + EscapeAll(text) + [QUOTE] + rest) == if IsUtf16(text) then Some((text, rest)) else None
  {
    BodyRoundTrip(text, rest);
    var s := [QUOTE] + EscapeAll(text) + [QUOTE] + rest;
    assert s[1..] == EscapeAll(text) + [QUOTE] + rest;
  }
}
