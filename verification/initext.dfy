/** What a configuration text says, line by line: how comments, white space, sections, fields,
    continuations and mistakes are read, wherever in a text the line stands. */
module IniText {
  import opened Text
  import opened Ini

  // ------------------------------------------------------------------------------ comments

  /** The first prefix, when it is not escaped, ends the line. */
  lemma StripCut(c: char, a: string, b: string)
    requires c !in a && (a == "" || a[|a| - 1] != '\\')
    ensures Strip(c, a + [c] + b) == a
  {
    FindAt(a, c, b);
    if a != "" { assert (a + [c] + b)[|a| - 1] == a[|a| - 1]; }
  }

  lemma StripPlain(c: char, s: string)
    requires c !in s
    ensures Strip(c, s) == s
  {}

  /** Nothing of the front part is lost, unless its last character would escape a prefix behind it. */
  lemma StripFront(c: char, a: string, b: string)
    requires c !in a && c != '\\'
    requires a == "" || a[|a| - 1] != '\\' || b == "" || b[0] != c
    ensures Strip(c, a + b) == a + Strip(c, b)
  {
    hide Strip; hide Find;
    var q := Find(b, c);
    if q == |b| {
      StripPlain(c, b);
      StripPlain(c, a + b);
    } else {
      var y := b[q + 1..];
      if q > 0 && b[q - 1] == '\\' {
        var x := b[..q - 1];
        assert b == x + ['\\', c] + y;
        Together(a, x, ['\\', c], y);
        StripAt(c, x, y);
        StripAt(c, a + x, y);
        Together(a, x, [c], Strip(c, y));
      } else {
        assert b == b[..q] + [c] + y;
        Together(a, b[..q], [c], y);
        StripCut(c, b[..q], y);
        StripCut(c, a + b[..q], y);
      }
    }
  }

  lemma Together(a: string, x: string, m: string, y: string)
    ensures a + (x + m + y) == (a + x) + m + y
  {}

  lemma {:induction false} StripEscaped(c: char, s: string, b: string)
    requires c != '\\' && (s == "" || s[|s| - 1] != '\\' || b == "" || b[0] != c)
    ensures Strip(c, EscapeOne(c, s) + b) == s + Strip(c, b)
    decreases |s|
  {
    hide Strip; hide EscapeOne;
    var p := Find(s, c);
    if p == |s| {
      EscapeOnePlain(c, s);
      StripFront(c, s, b);
    } else {
      var a, t := s[..p], s[p + 1..];
      assert s == a + [c] + t;
      EscapeOneAt(c, a, t);
      assert EscapeOne(c, s) + b == a + ['\\', c] + (EscapeOne(c, t) + b);
      StripAt(c, a, EscapeOne(c, t) + b);
      StripEscaped(c, t, b);
      assert a + [c] + (t + Strip(c, b)) == s + Strip(c, b);
    }
  }

  lemma {:induction false} EscapeOneLast(c: char, s: string)
    requires s != ""
    ensures EscapeOne(c, s) != "" && EscapeOne(c, s)[|EscapeOne(c, s)| - 1] == s[|s| - 1]
  {
    if |s| == 1 {
      EscapeOneOfOne(c, s[0]);
      assert s == [s[0]];
    } else {
      EscapeOneLast(c, s[1..]);
    }
  }

  /** An unescaped prefix and what follows it, or nothing. */
  predicate Comment(s: string) { s == "" || s[0] == '#' || s[0] == ';' }

  /** The comment is not taken for an escaped character. */
  predicate Apart(s: string, comment: string) { s == "" || comment == "" || s[|s| - 1] != '\\' }

  lemma CommentVanishes(s: string)
    requires Comment(s)
    ensures Uncomment(s) == ""
  {}

  /** A line loses its comment and its escapes, and nothing else. */
  lemma {:induction false} UncommentLine(s: string, comment: string)
    requires Comment(comment) && Apart(s, comment)
    ensures Uncomment(Escape(s) + comment) == s
  {
    hide Strip; hide EscapeOne;
    var y := EscapeOne(';', s);
    if s != "" { EscapeOneLast(';', s); } else { EscapeOnePlain(';', s); }
    StripPlain('#', "");
    StripEscaped('#', y, comment);
    StripEscaped(';', s, Strip('#', comment));
    CommentVanishes(comment);
    assert s + "" == s;
  }

  // --------------------------------------------------------------------------- white space

  const WHITE := " \t\n\r\U{0B}\U{0C}"

  predicate White(s: string) { forall i :: 0 <= i < |s| ==> s[i] in WHITE }

  /** No white space at either end. */
  predicate Bare(s: string) { s == "" || (s[0] !in WHITE && s[|s| - 1] !in WHITE) }

  lemma {:induction false} TrimRightWhite(s: string, b: string)
    requires White(b)
    ensures TrimRight(s + b) == TrimRight(s)
    decreases |b|
  {
    if b == "" {
      assert s + b == s;
    } else {
      assert (s + b)[..|s + b| - 1] == s + b[..|b| - 1];
      TrimRightWhite(s, b[..|b| - 1]);
    }
  }

  lemma {:induction false} SkipWhite(a: string, s: string)
    requires White(a)
    ensures SkipSpace(a + s) == SkipSpace(s)
    decreases |a|
  {
    if a == "" {
      assert a + s == s;
    } else {
      assert (a + s)[1..] == a[1..] + s;
      SkipWhite(a[1..], s);
    }
  }

  /** White space around a text is cut off. */
  lemma {:induction false} TrimAround(a: string, s: string, b: string)
    requires White(a) && White(b) && Bare(s)
    ensures Trim(a + s + b) == s
  {
    TrimRightWhite(a + s, b);
    if s == "" {
      TrimRightWhite("", a);
      assert "" + a == a + s;
    } else {
      assert (a + s)[|a + s| - 1] == s[|s| - 1];
      SkipWhite(a, s);
    }
  }

  /** What is cut off inside of a line does not matter. */
  lemma TrimHalves(a: string, b: string)
    ensures Trim(SkipSpace(a)) == Trim(a) && Trim(TrimRight(b)) == Trim(b)
  {
    TrimRightTwice(b);
    SkipThenTrim(a);
  }

  lemma TrimRightTwice(b: string)
    ensures TrimRight(TrimRight(b)) == TrimRight(b)
  {
    TrimRightShape(b);
  }

  lemma {:induction false} SkipThenTrim(a: string)
    ensures Trim(SkipSpace(a)) == Trim(a)
  {
    if a != "" && IsSpace(a[0]) {
      SkipThenTrim(a[1..]);
      TrimOneLess(a);
    }
  }

  lemma {:induction false} TrimOneLess(a: string)
    requires a != "" && IsSpace(a[0])
    ensures Trim(a[1..]) == Trim(a)
  {
    if |a| == 1 {
      assert TrimRight(a) == "" by { assert a[..0] == ""; }
    } else if IsSpace(a[|a| - 1]) {
      TrimOneLess(a[..|a| - 1]);
      assert a[..|a| - 1][1..] == a[1..][..|a[1..]| - 1];
    }
  }

  lemma {:induction false} TrimRightKeeps(s: string, b: string)
    requires s != "" && !IsSpace(s[|s| - 1])
    ensures TrimRight(s + b) == s + TrimRight(b)
    decreases |b|
  {
    if b == "" {
      assert s + b == s;
    } else if IsSpace(b[|b| - 1]) {
      assert (s + b)[..|s + b| - 1] == s + b[..|b| - 1];
      TrimRightKeeps(s, b[..|b| - 1]);
    }
  }

  lemma {:induction false} SkipKeeps(a: string, s: string)
    requires s != "" && !IsSpace(s[0])
    ensures SkipSpace(a + s) == SkipSpace(a) + s
  {
    if a == "" {
      assert a + s == s;
    } else {
      assert (a + s)[1..] == a[1..] + s;
      SkipKeeps(a[1..], s);
    }
  }

  /** Trimming a line with a separator trims the two sides of it. */
  lemma TrimSplit(a: string, b: string)
    ensures Trim(a + "=" + b) == SkipSpace(a) + "=" + TrimRight(b)
  {
    hide TrimRight; hide SkipSpace;
    TrimRightKeeps(a + "=", b);
    SkipKeeps(a, "=" + TrimRight(b));
    assert a + "=" + TrimRight(b) == a + ("=" + TrimRight(b));
  }

  // ----------------------------------------------------------------------- lines of a text

  lemma {:induction false} PiecesBehind(before: string, after: string)
    requires Terminated(before)
    ensures Pieces(before + after) == Lines(before) + Pieces(after)
    decreases |before|
  {
    hide Find; hide Pieces;
    if before == "" {
      assert before + after == after;
    } else {
      assert before[|before| - 1] in before;
      var p := Find(before, '\n');
      var head, tail := before[..p], before[p + 1..];
      assert before == head + ['\n'] + tail;
      assert before + after == head + ['\n'] + (tail + after);
      PiecesStep(head, tail + after);
      PiecesBehind(tail, after);
      assert [head] + (Lines(tail) + Pieces(after)) == [head] + Lines(tail) + Pieces(after);
    }
  }

  lemma DecodeBehind(before: string, after: string)
    requires Terminated(before)
    ensures Decode(before + after) == ReadFrom(Decode(before), Pieces(after), |Lines(before)|)
  {
    hide Pieces; hide Lines; hide ReadFrom; hide Terminated;
    PiecesBehind(before, after);
    PiecesBehind(before, "");
    PiecesOne("");
    assert before + "" == before;
    ReadFromAppend(Going(NOTHING), Lines(before), Pieces(after), 0);
    ReadFromAppend(Going(NOTHING), Lines(before), [""], 0);
    EmptyPiece(ReadFrom(Going(NOTHING), Lines(before), 0), |Lines(before)|);
  }

  lemma EmptyPiece(r: Reading, before: nat)
    ensures ReadFrom(r, [""], before) == r
  {
    ReadFromCons(r, "", [], before);
    assert [""] + [] == [""];
  }

  /** A line acts on what the text before it was read as. */
  lemma DecodeLineAfter(before: string, line: string)
    requires Terminated(before) && '\n' !in line
    ensures Decode(before + line) == Then(Decode(before), line, |Lines(before)| + 1)
  {
    hide Then;
    DecodeBehind(before, line);
    PiecesOne(line);
    ReadFromCons(Decode(before), line, [], |Lines(before)|);
    assert [line] + [] == [line];
  }

  // -------------------------------------------------------------------------- blank lines

  /** One line further down. */
  predicate Later(r: Reading, r': Reading, n: nat) {
    match r
    case Going(_) => r' == r
    case Rejected(problem, lineNo, file) => r' == Rejected(problem, if lineNo <= n then lineNo else lineNo + 1, file)
  }

  lemma {:induction false} ReadLater(r: Reading, lines: seq<string>, before: nat, n: nat)
    requires n <= before && r.Going?
    ensures Later(ReadFrom(r, lines, before), ReadFrom(r, lines, before + 1), n)
    decreases |lines|
  {
    if lines == [] {
    } else {
      hide Then;
      var s, s' := Then(r, lines[0], before + 1), Then(r, lines[0], before + 2);
      ThenLater(r, lines[0], before + 1);
      if s.Going? {
        ReadLater(s, lines[1..], before + 1, n);
      } else {
        RejectedStays(s, lines[1..], before + 1);
        RejectedStays(s', lines[1..], before + 2);
      }
    }
  }

  lemma ThenLater(r: Reading, raw: string, lineNo: nat)
    requires r.Going?
    ensures match Then(r, raw, lineNo)
            case Going(_) => Then(r, raw, lineNo + 1) == Then(r, raw, lineNo)
            case Rejected(problem, n, file) => n == lineNo && Then(r, raw, lineNo + 1) == Rejected(problem, n + 1, file)
  {
    hide Uncomment; hide Trim; hide Find; hide SetField; hide OpenSection;
  }

  lemma {:induction false} RejectedInside(r: Reading, lines: seq<string>, before: nat)
    requires r.Going? && ReadFrom(r, lines, before).Rejected?
    ensures before < ReadFrom(r, lines, before).lineNo <= before + |lines|
    decreases |lines|
  {
    if lines == [] {
    } else {
      var s := Then(r, lines[0], before + 1);
      if s.Going? {
        RejectedInside(s, lines[1..], before + 1);
      } else {
        RejectedStays(s, lines[1..], before + 1);
      }
    }
  }

  lemma BlankChangesNothing(r: Reading, white: string, comment: string, lineNo: nat)
    requires White(white) && Comment(comment)
    ensures Then(r, white + comment, lineNo) == r
  {
    hide Trim;
    EscapeWhite(white);
    UncommentLine(white, comment);
    TrimAround(white, "", "");
    assert white + "" + "" == white;
  }

  lemma EscapeWhite(white: string)
    requires White(white)
    ensures Escape(white) == white
  {
    EscapeOnePlain(';', white);
    EscapeOnePlain('#', white);
  }

  /** A line of white space, with or without a comment, can be put between any two lines of any text, in
      front of it or behind it: the same is read, and only the line of a mistake further down counts one
      higher. */
  lemma {:induction false} BlankLineSkipped(before: string, white: string, comment: string, after: string)
    requires Terminated(before) && White(white) && Comment(comment) && '\n' !in white + comment
    ensures Later(Decode(before + after), Decode(before + white + comment + "\n" + after), |Lines(before)|)
    ensures Decode(before + white + comment) == Decode(before)
  {
    hide Decode; hide Then; hide Pieces; hide Lines;
    var blank := white + comment;
    DecodeBehind(before, after);
    DecodeBehind(before, blank + ['\n'] + after);
    assert before + white + comment + "\n" + after == before + (blank + ['\n'] + after);
    assert before + white + comment == before + blank;
    PiecesStep(blank, after);
    ReadFromCons(Decode(before), blank, Pieces(after), |Lines(before)|);
    BlankChangesNothing(Decode(before), white, comment, |Lines(before)| + 1);
    DecodeLineAfter(before, blank);
    AfterBlank(before, Pieces(after));
  }

  lemma AfterBlank(before: string, lines: seq<string>)
    requires Terminated(before)
    ensures var r, n := Decode(before), |Lines(before)|;
            Later(ReadFrom(r, lines, n), ReadFrom(r, lines, n + 1), n)
  {
    hide Then; hide Pieces; hide Lines;
    var r, n := Decode(before), |Lines(before)|;
    if r.Going? {
      ReadLater(r, lines, n, n);
    } else {
      RejectedStays(r, lines, n);
      RejectedStays(r, lines, n + 1);
      PiecesBehind(before, "");
      assert before + "" == before && Lines(before) + [""] == Pieces(before) by { PiecesOne(""); }
      ReadFromAppend(Going(NOTHING), Lines(before), [""], 0);
      EmptyPiece(ReadFrom(Going(NOTHING), Lines(before), 0), n);
      RejectedInside(Going(NOTHING), Lines(before), 0);
    }
  }

  // --------------------------------------------------------------------------- other lines

  /** A line: white space, a text without white space at its ends, white space again, and maybe a comment. */
  predicate LineOk(a: string, text: string, b: string, comment: string) {
    && White(a) && Bare(text) && White(b) && Comment(comment) && Apart(text + b, comment)
    && '\n' !in a + text + b + comment
  }

  /** How it stands in the file. */
  function Source(a: string, text: string, b: string, comment: string): string { a + Escape(text) + b + comment }

  /** The text is accepted so far. */
  predicate ReadSoFar(before: string, p: Progress) { Terminated(before) && Decode(before) == Going(p) }

  function LineNo(before: string): nat { |Lines(before)| + 1 }

  predicate Indented(s: string) { s != "" && s[0] in " \t" }

  lemma LineIs(before: string, p: Progress, a: string, text: string, b: string, comment: string)
    requires ReadSoFar(before, p) && LineOk(a, text, b, comment)
    ensures Decode(before + Source(a, text, b, comment)) == ReadLine(p, a + text + b, LineNo(before))
    ensures Trim(a + text + b) == text
  {
    hide ReadLine; hide Decode; hide Trim; hide Lines; hide Uncomment; hide Escape; hide Terminated;
    var s := a + text + b;
    EscapeWhite(a);
    EscapeWhite(b);
    EscapeAppend(a + text, b);
    EscapeAppend(a, text);
    EscapeAddsNothing(s);
    assert Escape(s) + comment == Source(a, text, b, comment);
    UncommentLine(s, comment);
    DecodeLineAfter(before, Escape(s) + comment);
    TrimAround(a, text, b);
  }

  /** Every line is an escaped text and maybe a comment. */
  lemma {:induction false} EveryLineEscaped(raw: string) returns (s: string, comment: string)
    ensures raw == Escape(s) + comment && Comment(comment) && Apart(s, comment)
    decreases |raw|
  {
    hide EscapeOne;
    if raw == "" || raw[0] == '#' || raw[0] == ';' {
      s, comment := "", raw;
      EscapeOnePlain(';', "");
      EscapeOnePlain('#', "");
    } else {
      var k := if raw[0] == '\\' && |raw| > 1 && (raw[1] == '#' || raw[1] == ';') then 1 else 0;
      var rest;
      rest, comment := EveryLineEscaped(raw[k + 1..]);
      s := [raw[k]] + rest;
      EscapeAppend([raw[k]], rest);
      EscapeOfOne(raw[k]);
      assert raw == raw[..k + 1] + raw[k + 1..];
      assert raw[..k + 1] == Escape([raw[k]]);
      if rest == "" {
        EscapeOnePlain(';', "");
        EscapeOnePlain('#', "");
        assert comment == raw[k + 1..];
      }
    }
  }

  /** Every text is one without white space at its ends, with white space around it. */
  lemma {:induction false} EveryTextTrimmed(s: string) returns (a: string, text: string, b: string)
    ensures s == a + text + b && White(a) && Bare(text) && White(b)
    decreases |s|
  {
    if s == "" {
      a, text, b := "", "", "";
    } else if s[0] in WHITE {
      a, text, b := EveryTextTrimmed(s[1..]);
      a := [s[0]] + a;
    } else if s[|s| - 1] in WHITE {
      a, text, b := EveryTextTrimmed(s[..|s| - 1]);
      b := b + [s[|s| - 1]];
    } else {
      a, text, b := "", s, "";
    }
  }

  /** So every line of a text is one of those that the results below and `BlankLineSkipped` are about. */
  lemma {:induction false} EveryLine(raw: string) returns (a: string, text: string, b: string, comment: string)
    requires '\n' !in raw
    ensures LineOk(a, text, b, comment) && raw == Source(a, text, b, comment)
    ensures || text == "" || (text[0] == '[' && (|| ']' !in text
                                                 || (exists name, junk :: ']' !in name &&
                                                                          text == "[" + name + "]" + junk)))
            || text[0] != '['
  {
    hide Escape;
    var s;
    s, comment := EveryLineEscaped(raw);
    a, text, b := EveryTextTrimmed(s);
    EscapeSides(a, text, b);
    EscapeHidesNothing(a + text + b);
    assert Apart(text + b, comment) by {
      if text + b != "" { assert (a + text + b)[|a + text + b| - 1] == (text + b)[|text + b| - 1]; }
    }
    if text != "" && text[0] == '[' && ']' in text {
      var p := Find(text, ']');
      assert text == "[" + text[1..p] + "]" + text[p + 1..];
      assert ']' !in text[1..p];
    }
  }

  lemma {:induction false} EscapeOneHidesNothing(c: char, s: string, d: char)
    ensures d in s ==> d in EscapeOne(c, s)
  {
    if s == "" {
    } else {
      EscapeOneHidesNothing(c, s[1..], d);
    }
  }

  lemma EscapeHidesNothing(s: string)
    ensures '\n' in s ==> '\n' in Escape(s)
  {
    EscapeOneHidesNothing(';', s, '\n');
    EscapeOneHidesNothing('#', EscapeOne(';', s), '\n');
  }

  lemma IndentedIs(s: string)
    ensures HasIndent(s) <==> s == "" || Indented(s)
  {}

  /** A name in brackets opens its section, which keeps the fields it has; what stands behind the bracket is
      ignored, and no field is open. Without a name the line is rejected. */
  lemma {:induction false} SectionLine(
      before: string, p: Progress, a: string, name: string, junk: string, b: string, comment: string)
    requires ReadSoFar(before, p) && ']' !in name && LineOk(a, "[" + name + "]" + junk, b, comment)
    ensures Decode(before + Source(a, "[" + name + "]" + junk, b, comment)) ==
              if name == "" then Rejected(SectionEmpty, LineNo(before), p.file)
              else Going(Progress(p.file[name := if name in p.file then p.file[name] else map[]], Some(name), ""))
  {
    hide Trim; hide Decode; hide Lines; hide Escape;
    var text := "[" + name + "]" + junk;
    LineIs(before, p, a, text, b, comment);
    assert text == ("[" + name) + [']'] + junk;
    FindAt("[" + name, ']', junk);
    assert text[1..|name| + 1] == name;
  }

  /** A bracket that is not closed is a mistake. */
  lemma {:induction false} UnclosedLine(
      before: string, p: Progress, a: string, rest: string, b: string, comment: string)
    requires ReadSoFar(before, p) && ']' !in rest && LineOk(a, "[" + rest, b, comment)
    ensures Decode(before + Source(a, "[" + rest, b, comment)) ==
              Rejected(SectionNotClosed, LineNo(before), p.file)
  {
    hide Trim; hide Decode; hide Lines; hide Escape;
    LineIs(before, p, a, "[" + rest, b, comment);
    assert Find("[" + rest, ']') == |"[" + rest|;
  }

  /** Any other text needs a section, and a separator unless it continues a field. */
  lemma {:induction false} MistakenLine(
      before: string, p: Progress, a: string, text: string, b: string, comment: string)
    requires ReadSoFar(before, p) && LineOk(a, text, b, comment) && text != "" && text[0] != '['
    requires p.section == None || ('=' !in text && (p.field == "" || !Indented(a)))
    ensures Decode(before + Source(a, text, b, comment)) ==
              Rejected(if p.section == None then FieldWithoutSection else NoSeparator, LineNo(before), p.file)
  {
    hide Trim; hide Decode; hide Lines; hide Escape;
    LineIs(before, p, a, text, b, comment);
    IndentedIs(a + text + b);
    if a != "" { assert (a + text + b)[0] == a[0]; } else { assert (a + text + b)[0] == text[0]; }
    assert Find(text, '=') == |text| <==> '=' !in text;
  }

  /** The fields of a section in a file. */
  function Fields(file: File, section: string): Section { if section in file then file[section] else map[] }

  /** Whatever white space is around the name, the separator and the value: the field of the open section
      has the value, in place of an earlier one, and is open; everything else stays. The line may be
      indented as long as no field is open. */
  lemma {:induction false} FieldLine(
      before: string, p: Progress, section: string, a: string, name: string, b: string, c: string, value: string,
      d: string, comment: string)
    requires ReadSoFar(before, p) && p.section == Some(section)
    requires White(a) && White(b) && White(c) && White(d) && Bare(name) && Bare(value)
    requires '=' !in name && (name == "" || name[0] != '[') && (p.field == "" || !Indented(a + name + b))
    requires Comment(comment) && Apart(c + value + d, comment)
    requires '\n' !in a + name + b + c + value + d + comment
    ensures Decode(before + (a + Escape(name) + b + "=" + c + Escape(value) + d + comment)) ==
              Going(Progress(p.file[section := Fields(p.file, section)[name := value]], p.section, name))
  {
    hide Trim; hide Decode; hide Lines; hide Escape; hide ReadLine; hide White; hide Bare;
    var x, y := a + name + b, c + value + d;
    FieldSource(before, p, a, name, b, c, value, d, comment);
    TrimAround(a, name, b);
    TrimAround(c, value, d);
    WhiteHasNo(a, '=');
    WhiteHasNo(b, '=');
    ReadsField(p, section, x, y, LineNo(before));
  }

  lemma WhiteHasNo(a: string, c: char)
    requires White(a) && c !in WHITE
    ensures c !in a
  {}

  lemma FieldSource(before: string, p: Progress, a: string, name: string, b: string, c: string, value: string,
                    d: string, comment: string)
    requires ReadSoFar(before, p) && White(a) && White(b) && White(c) && White(d)
    requires Comment(comment) && Apart(c + value + d, comment)
    requires '\n' !in a + name + b + c + value + d + comment
    ensures Decode(before + (a + Escape(name) + b + "=" + c + Escape(value) + d + comment))
         == ReadLine(p, (a + name + b) + "=" + (c + value + d), LineNo(before))
  {
    hide Decode; hide Lines; hide Uncomment; hide Escape; hide Terminated; hide White; hide ReadLine;
    var s := (a + name + b) + "=" + (c + value + d);
    EscapeSides(a, name, b);
    EscapeSides(c, value, d);
    EscapeAppend((a + name + b) + "=", c + value + d);
    EscapeAppend(a + name + b, "=");
    EscapeOfOne('=');
    EscapeAddsNothing(s);
    Regrouped(a, Escape(name), b, c, Escape(value), d, comment);
    assert Apart(s, comment);
    UncommentLine(s, comment);
    DecodeLineAfter(before, Escape(s) + comment);
  }

  lemma EscapeSides(a: string, s: string, b: string)
    requires White(a) && White(b)
    ensures Escape(a + s + b) == a + Escape(s) + b
  {
    hide Escape;
    EscapeWhite(a);
    EscapeWhite(b);
    EscapeAppend(a + s, b);
    EscapeAppend(a, s);
  }

  lemma Regrouped(a: string, n: string, b: string, c: string, v: string, d: string, comment: string)
    ensures a + n + b + "=" + c + v + d + comment == (a + n + b) + "=" + (c + v + d) + comment
  {}

  lemma ReadsField(p: Progress, section: string, x: string, y: string, lineNo: nat)
    requires p.section == Some(section) && '=' !in x
    requires (Trim(x) == "" || Trim(x)[0] != '[') && (p.field == "" || !Indented(x))
    ensures ReadLine(p, x + "=" + y, lineNo) ==
              Going(Progress(p.file[section := Fields(p.file, section)[Trim(x) := Trim(y)]], p.section, Trim(x)))
  {
    hide SkipSpace; hide TrimRight;
    var line := Trim(x + "=" + y);
    TrimSplit(x, y);
    TrimHalves(x, y);
    SkipSpaceShape(x);
    NoBracket(x);
    assert line == SkipSpace(x) + ['='] + TrimRight(y);
    FindAt(SkipSpace(x), '=', TrimRight(y));
    IndentedIs(x + "=" + y);
    if x != "" { assert (x + "=" + y)[0] == x[0]; }
  }

  lemma NoBracket(x: string)
    requires Trim(x) == "" || Trim(x)[0] != '['
    ensures SkipSpace(x) == "" || SkipSpace(x)[0] != '['
  {
    SkipSpaceShape(x);
    TrimHalves(x, "");
    if SkipSpace(x) != "" { TrimKeepsFirst(SkipSpace(x)); }
  }

  /** A line that is indented, with any number of spaces or tabs, is added to the value of the field that is
      open, as a line of its own. */
  lemma {:induction false} ContinuationLine(
      before: string, p: Progress, section: string, a: string, text: string, b: string, comment: string)
    requires ReadSoFar(before, p) && p.section == Some(section) && p.field != ""
    requires Indented(a) && LineOk(a, text, b, comment) && text != "" && text[0] != '['
    ensures section in p.file && p.field in p.file[section]
    ensures var value := p.file[section][p.field] + "\n" + text;
            Decode(before + Source(a, text, b, comment)) ==
              Going(p.(file := p.file[section := p.file[section][p.field := value]]))
  {
    hide Trim; hide Decode; hide Lines; hide Escape;
    LineIs(before, p, a, text, b, comment);
    OpenFieldExists(before, p);
    IndentedIs(a + text + b);
    assert (a + text + b)[0] == a[0];
  }

  lemma OpenFieldExists(before: string, p: Progress)
    requires Decode(before) == Going(p)
    ensures ProgressOk(p)
  {
    ReadFromKeeps(Going(NOTHING), Pieces(before), 0);
  }

  /** The first mistake decides: nothing that follows changes the report. */
  lemma {:induction false} FirstMistakeStands(before: string, after: string)
    requires Terminated(before) && Decode(before).Rejected?
    ensures Decode(before + after) == Decode(before)
  {
    hide Decode; hide Pieces; hide Lines;
    DecodeBehind(before, after);
    RejectedStays(Decode(before), Pieces(after), |Lines(before)|);
  }

  /** An empty text is an empty file, and a line feed at its end changes nothing. */
  lemma {:induction false} EndOfText(text: string)
    ensures Decode("") == Going(Progress(map[], None, ""))
    ensures Decode(text + "\n") == Decode(text)
  {
    hide Pieces; hide Then;
    PiecesOne("");
    EmptyPiece(Going(NOTHING), 0);
    PiecesSnoc(text, "");
    assert text + "\n" + "" == text + "\n";
    ReadFromAppend(Going(NOTHING), Pieces(text), [""], 0);
    EmptyPiece(ReadFrom(Going(NOTHING), Pieces(text), 0), |Pieces(text)|);
  }
}
