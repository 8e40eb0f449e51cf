/** Text-level building blocks that the services share: decimal and hexadecimal
    numerals, `std::stoul`, `std::getline` over lines and over delimited fields. */
module Text {

  newtype byte = x: int | 0 <= x < 0x100
  type uint32 = x: int | 0 <= x < 0x1_0000_0000
  type uint64 = x: int | 0 <= x < 0x1_0000_0000_0000_0000

  const TWO_32: int := 0x1_0000_0000
  const TWO_63: int := 0x8000_0000_0000_0000
  const TWO_64: int := 0x1_0000_0000_0000_0000

  /** Conversion of an integer to `std::uint32_t` and to `std::uint64_t`. */
  function Narrow32(n: int): (r: uint32)
    ensures 0 <= n < TWO_32 ==> r == n
  {
    n % 0x1_0000_0000
  }

  function Narrow64(n: int): (r: uint64)
    ensures 0 <= n < TWO_64 ==> r == n
  {
    n % 0x1_0000_0000_0000_0000
  }

  datatype Option<+T> = None | Some(value: T)

  // ---------------------------------------------------------------- searching

  /** The position of the first `c` in `s`, or |s| when there is none. */
  function Find(s: string, c: char): (p: nat)
    ensures p <= |s| && c !in s[..p]
    ensures p < |s| ==> s[p] == c
    ensures p < |s| <==> c in s
  {
    if s == "" then 0 else if s[0] == c then 0 else
      var q := Find(s[1..], c);
      assert s[..1 + q] == [s[0]] + s[1..][..q];
      assert s == [s[0]] + s[1..];
      1 + q
  }

  /** Splitting at a known first occurrence. */
  lemma FindAt(a: string, c: char, b: string)
    requires c !in a
    ensures Find(a + [c] + b, c) == |a|
    ensures (a + [c] + b)[..|a|] == a && (a + [c] + b)[|a| + 1..] == b
  {
    var s := a + [c] + b;
    var p := Find(s, c);
    assert s[|a|] == c;
    assert s[..|a|] == a;
    assert p >= |a|;
    assert p <= |a|;
  }

  // ------------------------------------------------------------------ numerals

  predicate IsDigit(c: char) { '0' <= c <= '9' }

  predicate AllDigits(s: string) { forall i :: 0 <= i < |s| ==> IsDigit(s[i]) }

  /** `std::to_string` on an unsigned value. */
  function Dec(n: nat): (s: string)
    ensures |s| > 0 && AllDigits(s)
  {
    var d := ['0' + (n % 10) as char];
    if n < 10 then d else Dec(n / 10) + d
  }

  function Value(s: string): nat
    requires AllDigits(s)
  {
    if s == "" then 0 else 10 * Value(s[..|s| - 1]) + (s[|s| - 1] - '0') as int
  }

  lemma {:induction false} ValueOfDec(n: nat)
    ensures Value(Dec(n)) == n
  {
    var d := ['0' + (n % 10) as char];
    if n < 10 {
      assert d[..0] == "";
    } else {
      ValueOfDec(n / 10);
      assert Dec(n)[..|Dec(n)| - 1] == Dec(n / 10);
    }
  }

  /** A decimal numeral as one writes it: no zero in front. */
  predicate Numeral(s: string) { s != "" && AllDigits(s) && (s[0] == '0' ==> |s| == 1) }

  /** `std::to_string` writes the one numeral that has this value. */
  lemma {:induction false} DecIsNumeral(n: nat, s: string)
    ensures s == Dec(n) <==> Numeral(s) && Value(s) == n
    decreases n + |s|
  {
    ValueOfDec(n);
    DecHasNoZeroInFront(n);
    if Numeral(s) && Value(s) == n {
      var front := s[..|s| - 1];
      if |s| == 1 {
        assert front == "";
      } else {
        NumeralIsPositive(front);
        assert Numeral(front) && n / 10 == Value(front) && n >= 10;
        DecIsNumeral(n / 10, front);
      }
      assert s == front + [s[|s| - 1]];
    }
  }

  lemma {:induction false} DecHasNoZeroInFront(n: nat)
    ensures Numeral(Dec(n)) && (n > 0 ==> Dec(n)[0] != '0')
  {
    if n >= 10 { DecHasNoZeroInFront(n / 10); }
  }

  lemma {:induction false} NumeralIsPositive(s: string)
    requires s != "" && AllDigits(s) && s[0] != '0'
    ensures Value(s) > 0
  {
    if |s| > 1 { NumeralIsPositive(s[..|s| - 1]); } else { assert s[..0] == ""; }
  }

  /** Each place counts ten times the next. */
  lemma DecExample()
    ensures Dec(6411) == "6411"
  {}

  predicate IsSpace(c: char) { c in " \t\n\r\U{0B}\U{0C}" }

  function SkipSpace(s: string): string {
    if s != "" && IsSpace(s[0]) then SkipSpace(s[1..]) else s
  }

  /** The longest prefix of digits. */
  function DigitRun(s: string): (r: string)
    ensures AllDigits(r) && r <= s
  {
    if s != "" && IsDigit(s[0]) then [s[0]] + DigitRun(s[1..]) else ""
  }

  datatype Stoul = Number(n: uint64) | InvalidArgument | OutOfRange

  /** `std::stoul` in base ten with a 64-bit `unsigned long`: leading white space
      and a sign are skipped, what follows the digits is ignored, and a minus sign
      negates modulo 2^64. */
  function ParseUlong(s: string): Stoul {
    var t := SkipSpace(s);
    var negative := t != "" && t[0] == '-';
    var signed := t != "" && (t[0] == '-' || t[0] == '+');
    var ds := DigitRun(if signed then t[1..] else t);
    if ds == "" then InvalidArgument
    else if Value(ds) >= TWO_64 then OutOfRange
    else if negative && Value(ds) > 0 then Number(TWO_64 - Value(ds))
    else Number(Value(ds))
  }

  lemma {:induction false} DigitRunStops(ds: string, rest: string)
    requires AllDigits(ds) && (rest == "" || !IsDigit(rest[0]))
    ensures DigitRun(ds + rest) == ds
  {
    if ds == "" {
      assert ds + rest == rest;
    } else {
      assert (ds + rest)[1..] == ds[1..] + rest;
      DigitRunStops(ds[1..], rest);
    }
  }

  /** `std::stoul(std::to_string(n) + rest) == n` when `rest` does not go on with a digit. */
  lemma ParseUlongOfDec(n: nat, rest: string)
    requires n < TWO_64 && (rest == "" || !IsDigit(rest[0]))
    ensures ParseUlong(Dec(n) + rest) == Number(n)
  {
    hide Dec; hide Value; hide DigitRun;
    var s := Dec(n) + rest;
    assert s[0] == Dec(n)[0];
    assert IsDigit(s[0]) && !IsSpace(s[0]);
    DigitRunStops(Dec(n), rest);
    ValueOfDec(n);
  }

  lemma ParseUlongOfWhole(n: uint64)
    ensures ParseUlong(Dec(n)) == Number(n)
  {
    ParseUlongOfDec(n, "");
    assert Dec(n) + "" == Dec(n);
  }

  predicate WhiteOnly(s: string) { forall i :: 0 <= i < |s| ==> s[i] in " \t\n\r\U{0B}\U{0C}" }

  lemma {:induction false} SkipWhiteOnly(white: string, s: string)
    requires WhiteOnly(white)
    ensures SkipSpace(white + s) == SkipSpace(s)
  {
    if white == "" {
      assert white + s == s;
    } else {
      assert (white + s)[1..] == white[1..] + s;
      SkipWhiteOnly(white[1..], s);
    }
  }

  /** How `std::stoul` reads any text: white space, maybe a sign, digits, and anything that does not go on
      with a digit. */
  lemma {:induction false} StoulReads(white: string, sign: string, digits: string, rest: string)
    requires WhiteOnly(white) && sign in {"", "+", "-"} && AllDigits(digits) && digits != ""
    requires rest == "" || !IsDigit(rest[0])
    ensures ParseUlong(white + sign + digits + rest) ==
              if Value(digits) >= 18446744073709551616 then OutOfRange
              else if sign == "-" && Value(digits) > 0 then Number(18446744073709551616 - Value(digits))
              else Number(Value(digits))
  {
    hide Value; hide DigitRun; hide SkipSpace;
    var t := sign + digits + rest;
    assert white + sign + digits + rest == white + t;
    SkipWhiteOnly(white, t);
    NothingToSkip(t);
    DigitRunStops(digits, rest);
    if sign == "" {
      assert t == digits + rest && IsDigit(t[0]);
    } else {
      assert t[0] == sign[0] && t[1..] == digits + rest;
    }
  }

  lemma NothingToSkip(t: string)
    requires t != "" && !IsSpace(t[0])
    ensures SkipSpace(t) == t
  {}

  /** Without a digit behind the white space and the sign there is no number. */
  lemma {:induction false} StoulRejects(white: string, sign: string, rest: string)
    requires WhiteOnly(white) && sign in {"", "+", "-"} && (rest == "" || !IsDigit(rest[0]))
    requires sign == "" && rest != "" ==> rest[0] !in " \t\n\r\U{0B}\U{0C}+-"
    ensures ParseUlong(white + sign + rest) == InvalidArgument
  {
    hide Value; hide SkipSpace;
    var t := sign + rest;
    assert white + sign + rest == white + t;
    SkipWhiteOnly(white, t);
    if t != "" { NothingToSkip(t); } else { NothingAtAll(); }
    if sign != "" { assert t[0] == sign[0] && t[1..] == rest; } else { assert t == rest; }
  }

  lemma NothingAtAll()
    ensures SkipSpace("") == ""
  {}

  // ------------------------------------------------------------------- hexadecimal

  function HexDigit(n: nat): char
    requires n < 16
  {
    if n < 10 then '0' + n as char else 'a' + (n - 10) as char
  }

  predicate IsHexDigit(c: char) { '0' <= c <= '9' || 'a' <= c <= 'f' }

  predicate IsHex(s: string) { forall i :: 0 <= i < |s| ==> IsHexDigit(s[i]) }

  /** `generate_secret`: every random byte as two lower-case hexadecimal digits. */
  function Hex(bs: seq<byte>): (s: string)
    ensures |s| == 2 * |bs| && IsHex(s)
  {
    if bs == [] then "" else
      [HexDigit(bs[0] as int / 16), HexDigit(bs[0] as int % 16)] + Hex(bs[1..])
  }

  /** Byte `i` is the two digits at `2 * i`, the high one first. */
  lemma {:induction false} HexDigitsAt(bs: seq<byte>, i: nat)
    requires i < |bs|
    ensures var digits := "0123456789abcdef"; var n := bs[i] as int;
            Hex(bs)[2 * i] == digits[n / 16] && Hex(bs)[2 * i + 1] == digits[n % 16]
  {
    var s := Hex(bs);
    assert s[2..] == Hex(bs[1..]);
    if i == 0 {
      DigitIs(bs[0] as int / 16);
      DigitIs(bs[0] as int % 16);
    } else {
      HexDigitsAt(bs[1..], i - 1);
      assert s[2 * i] == s[2..][2 * (i - 1)] && s[2 * i + 1] == s[2..][2 * (i - 1) + 1];
    }
  }

  lemma DigitIs(n: nat)
    requires n < 16
    ensures HexDigit(n) == "0123456789abcdef"[n]
  {}

  lemma {:induction false} HexInjective(a: seq<byte>, b: seq<byte>)
    requires Hex(a) == Hex(b)
    ensures a == b
  {
    assert |a| == |b|;
    if a == [] {
    } else {
      var x, y := Hex(a), Hex(b);
      assert x[0] == y[0] && x[1] == y[1];
      assert a[0] as int == b[0] as int;
      assert x[2..] == Hex(a[1..]) && y[2..] == Hex(b[1..]);
      HexInjective(a[1..], b[1..]);
      assert a == [a[0]] + a[1..] && b == [b[0]] + b[1..];
    }
  }

  // ----------------------------------------------------------------------- getline

  /** What `while(std::getline(file, line))` visits: a last piece without a line
      feed counts only when it is not empty. */
  function Lines(text: string): (ls: seq<string>) {
    if text == "" then [] else
      var p := Find(text, '\n');
      if p == |text| then [text] else [text[..p]] + Lines(text[p + 1..])
  }

  lemma LinesStep(head: string, tail: string)
    requires '\n' !in head
    ensures Lines(head + ['\n'] + tail) == [head] + Lines(tail)
  {
    FindAt(head, '\n', tail);
  }

  predicate Terminated(text: string) { text == "" || text[|text| - 1] == '\n' }

  lemma NoLines()
    ensures Lines("") == []
  {}

  /** Appending a whole line to a file that ends in a line feed adds exactly that line. */
  lemma {:induction false} LinesAppend(text: string, line: string)
    requires Terminated(text) && '\n' !in line
    ensures Lines(text + line + "\n") == Lines(text) + [line]
    ensures Terminated(text + line + "\n")
    decreases |text|
  {
    hide Find; hide Lines;
    NoLines();
    if text == "" {
      assert text + line + "\n" == line + ['\n'] + "";
      LinesStep(line, "");
    } else {
      assert text[|text| - 1] in text;
      var p := Find(text, '\n');
      var head, tail := text[..p], text[p + 1..];
      assert text == head + ['\n'] + tail;
      LineMoved(head, tail, line);
      LinesStep(head, tail + line + "\n");
      LinesStep(head, tail);
      LinesAppend(tail, line);
      assert [head] + (Lines(tail) + [line]) == ([head] + Lines(tail)) + [line];
    }
  }

  lemma LineMoved(head: string, tail: string, line: string)
    ensures head + ['\n'] + tail + line + "\n" == head + ['\n'] + (tail + line + "\n")
  {}

  /** Every line followed by a line feed. */
  function Joined(lines: seq<string>): string {
    if lines == [] then "" else lines[0] + "\n" + Joined(lines[1..])
  }

  lemma {:induction false} JoinedAppend(a: seq<string>, b: seq<string>)
    ensures Joined(a + b) == Joined(a) + Joined(b)
  {
    if a == [] {
      assert a + b == b;
    } else {
      JoinedAppend(a[1..], b);
      assert (a + b)[1..] == a[1..] + b;
    }
  }

  lemma JoinedCons(line: string, lines: seq<string>)
    ensures Joined([line] + lines) == line + "\n" + Joined(lines)
  {
    assert ([line] + lines)[1..] == lines;
  }

  /** The text consists of these lines, each ended by a line feed; a last line that is not empty may lack it. */
  predicate ConsistsOf(text: string, lines: seq<string>) {
    && (forall i :: 0 <= i < |lines| ==> '\n' !in lines[i])
    && (|| text == Joined(lines)
        || (lines != [] && lines[|lines| - 1] != "" &&
            text == Joined(lines[..|lines| - 1]) + lines[|lines| - 1]))
  }

  /** The lines that are visited are the ones that the text consists of. */
  lemma {:induction false} LinesAre(text: string, lines: seq<string>)
    requires ConsistsOf(text, lines)
    ensures Lines(text) == lines
    decreases |lines|
  {
    hide Find; hide Lines;
    if lines == [] {
      NoLines();
    } else {
      var tail := lines[1..];
      if |lines| == 1 && text == Joined([]) + lines[0] {
        assert text == lines[0];
        OneLineLeft(text);
      } else {
        var rest := if text == Joined(lines) then Joined(tail) else Joined(tail[..|tail| - 1]) + tail[|tail| - 1];
        if text != Joined(lines) { assert lines[..|lines| - 1] == [lines[0]] + tail[..|tail| - 1]; }
        assert text == lines[0] + ['\n'] + rest;
        LinesStep(lines[0], rest);
        LinesAre(rest, tail);
      }
    }
  }

  lemma OneLineLeft(text: string)
    requires text != "" && '\n' !in text
    ensures Lines(text) == [text]
  {}

  /** Every text consists of its lines. */
  lemma {:induction false} LinesOf(text: string)
    ensures ConsistsOf(text, Lines(text))
    decreases |text|
  {
    hide Joined; hide ConsistsOf;
    if text == "" {
      NoText();
    } else {
      var p := Find(text, '\n');
      if p == |text| {
        LastText(text);
      } else {
        LinesOf(text[p + 1..]);
        LinesFront(text, text[..p], text[p + 1..], Lines(text[p + 1..]));
      }
    }
  }

  lemma NoText()
    ensures ConsistsOf("", [])
  {}

  lemma LastText(text: string)
    requires text != "" && '\n' !in text
    ensures ConsistsOf(text, [text])
  {
    assert [text][..0] == [];
  }

  lemma LinesFront(text: string, head: string, tail: string, rest: seq<string>)
    requires '\n' !in head && text == head + ['\n'] + tail && ConsistsOf(tail, rest)
    ensures ConsistsOf(text, [head] + rest)
  {
    hide Find; hide Lines;
    var all := [head] + rest;
    assert all[1..] == rest;
    if tail != Joined(rest) {
      assert all[..|all| - 1] == [head] + rest[..|rest| - 1];
      assert all[..|all| - 1][1..] == rest[..|rest| - 1];
    }
  }

  datatype Extracted = Extracted(field: string, rest: string) | Failed

  /** `std::getline(stream, field, delim)`: fails when nothing is left to extract. */
  function GetField(s: string, delim: char): (r: Extracted)
    ensures r.Extracted? ==> |r.rest| < |s|
  {
    if s == "" then Failed else
      var p := Find(s, delim);
      if p == |s| then Extracted(s, "") else Extracted(s[..p], s[p + 1..])
  }

  lemma GetFieldAt(a: string, delim: char, b: string)
    requires delim !in a
    ensures GetField(a + [delim] + b, delim) == Extracted(a, b)
  {
    FindAt(a, delim, b);
  }
}
