/** The configuration file format: comments and their escapes, sections, fields and
    multi-line values, as they are read and as they are written. Separators are the
    default ones (`=`, `#`, `;`, `\`) and multi-line values are on. */
module Ini {
  import opened Text

  type Section = map<string, string>
  type File = map<string, Section>

  // ---------------------------------------------------------------------------- comments

  /** `eraseComment` for the prefix `c`: an escaped prefix loses its escape character, the first
      one that is not escaped ends the line. */
  function Strip(c: char, s: string): string
    decreases |s|
  {
    var p := Find(s, c);
    if p == |s| then s
    else if p > 0 && s[p - 1] == '\\' then s[..p - 1] + [c] + Strip(c, s[p + 1..])
    else s[..p]
  }

  function Uncomment(s: string): string { Strip(';', Strip('#', s)) }

  /** An escape character in front of every `c`. */
  function EscapeOne(c: char, s: string): string {
    if s == "" then "" else (if s[0] == c then ['\\', c] else [s[0]]) + EscapeOne(c, s[1..])
  }

  function Escape(s: string): string { EscapeOne('#', EscapeOne(';', s)) }

  lemma {:induction false} EscapeOneAppend(c: char, a: string, b: string)
    ensures EscapeOne(c, a + b) == EscapeOne(c, a) + EscapeOne(c, b)
  {
    if a == "" {
      assert a + b == b;
    } else {
      EscapeOneAppend(c, a[1..], b);
      assert (a + b)[1..] == a[1..] + b && (a + b)[0] == a[0];
      var x := if a[0] == c then ['\\', c] else [a[0]];
      assert x + (EscapeOne(c, a[1..]) + EscapeOne(c, b)) == (x + EscapeOne(c, a[1..])) + EscapeOne(c, b);
    }
  }

  lemma EscapeAppend(a: string, b: string)
    ensures Escape(a + b) == Escape(a) + Escape(b)
  {
    EscapeOneAppend(';', a, b);
    EscapeOneAppend('#', EscapeOne(';', a), EscapeOne(';', b));
  }

  lemma {:induction false} EscapeOnePlain(c: char, s: string)
    requires c !in s
    ensures EscapeOne(c, s) == s
  {
    if s == "" {
    } else {
      EscapeOnePlain(c, s[1..]);
    }
  }

  lemma StripAt(c: char, a: string, b: string)
    requires c !in a && c != '\\'
    ensures Strip(c, a + ['\\', c] + b) == a + [c] + Strip(c, b)
  {
    var s := a + ['\\', c] + b;
    assert s == (a + ['\\']) + [c] + b;
    FindAt(a + ['\\'], c, b);
    assert s[|a|] == '\\' && s[..|a|] == a;
  }

  lemma EscapeOneAt(c: char, a: string, b: string)
    requires c !in a
    ensures EscapeOne(c, a + [c] + b) == a + ['\\', c] + EscapeOne(c, b)
  {
    assert a + [c] + b == a + ([c] + b);
    EscapeOneAppend(c, a, [c] + b);
    EscapeOnePlain(c, a);
    assert ([c] + b)[1..] == b;
  }

  lemma {:induction false} StripUndoesEscape(c: char, s: string)
    requires c != '\\'
    ensures Strip(c, EscapeOne(c, s)) == s
    decreases |s|
  {
    var p := Find(s, c);
    if p == |s| {
      EscapeOnePlain(c, s);
    } else {
      var a, b := s[..p], s[p + 1..];
      assert s == a + [c] + b;
      EscapeOneAt(c, a, b);
      StripAt(c, a, EscapeOne(c, b));
      StripUndoesEscape(c, b);
    }
  }

  /** Removing comments from an escaped line gives back the line, whatever backslashes, `#` and `;` it has. */
  lemma {:induction false} UncommentUndoesEscape(s: string)
    ensures Uncomment(Escape(s)) == s
  {
    StripUndoesEscape('#', EscapeOne(';', s));
    StripUndoesEscape(';', s);
  }

  // ------------------------------------------------------------------------------- trimming

  function TrimRight(s: string): string {
    if s != "" && IsSpace(s[|s| - 1]) then TrimRight(s[..|s| - 1]) else s
  }

  function Trim(s: string): string { SkipSpace(TrimRight(s)) }

  /** No white space at either end. */
  predicate Trimmed(s: string) { s == "" || (!IsSpace(s[0]) && !IsSpace(s[|s| - 1])) }

  /** `line.find_first_not_of(" \t") != 0`, which holds for the empty line too. */
  predicate HasIndent(line: string) { line == "" || line[0] == ' ' || line[0] == '\t' }

  lemma {:induction false} TrimRightShape(s: string)
    ensures TrimRight(s) <= s && (TrimRight(s) == "" || !IsSpace(TrimRight(s)[|TrimRight(s)| - 1]))
  {
    if s != "" && IsSpace(s[|s| - 1]) { TrimRightShape(s[..|s| - 1]); }
  }

  lemma {:induction false} SkipSpaceShape(s: string)
    ensures var t := SkipSpace(s);
            && |t| <= |s| && t == s[|s| - |t|..]
            && (t == "" || !IsSpace(t[0]))
  {
    if s != "" && IsSpace(s[0]) { SkipSpaceShape(s[1..]); }
  }

  lemma TrimTrims(s: string)
    ensures Trimmed(Trim(s))
    ensures forall c :: c in Trim(s) ==> c in s
  {
    TrimRightShape(s);
    SkipSpaceShape(TrimRight(s));
  }

  lemma TrimOfTrimmed(s: string)
    requires Trimmed(s)
    ensures Trim(s) == s
  {}

  /** Trimming the front part of a line keeps a first character that is not white space. */
  lemma TrimKeepsFirst(s: string)
    requires s != "" && !IsSpace(s[0])
    ensures Trim(s) != "" && Trim(s)[0] == s[0]
  {
    TrimRightKeepsFirst(s);
    SkipSpaceShape(TrimRight(s));
  }

  lemma {:induction false} TrimRightKeepsFirst(s: string)
    requires s != "" && !IsSpace(s[0])
    ensures TrimRight(s) != "" && TrimRight(s)[0] == s[0]
  {
    if IsSpace(s[|s| - 1]) { TrimRightKeepsFirst(s[..|s| - 1]); }
  }

  lemma TrimOfIndented(s: string)
    requires s != "" && Trimmed(s)
    ensures Trim("\t" + s) == s
  {
    var t := "\t" + s;
    assert t[|t| - 1] == s[|s| - 1];
    assert TrimRight(t) == t && t[1..] == s && IsSpace(t[0]);
    assert SkipSpace(t) == SkipSpace(s) == s;
  }

  // ---------------------------------------------------------------------------------- lines

  /** What the reading loop visits: everything between line feeds, a last empty piece included. */
  function Pieces(text: string): (ps: seq<string>)
    ensures |ps| >= 1
    ensures forall i :: 0 <= i < |ps| ==> '\n' !in ps[i]
    decreases |text|
  {
    var p := Find(text, '\n');
    if p == |text| then [text] else [text[..p]] + Pieces(text[p + 1..])
  }

  lemma PiecesStep(line: string, rest: string)
    requires '\n' !in line
    ensures Pieces(line + ['\n'] + rest) == [line] + Pieces(rest)
  {
    FindAt(line, '\n', rest);
  }

  lemma PiecesOne(line: string)
    requires '\n' !in line
    ensures Pieces(line) == [line]
  {}

  /** Adding a line at the end adds a piece. */
  lemma {:induction false} PiecesSnoc(text: string, line: string)
    requires '\n' !in line
    ensures Pieces(text + "\n" + line) == Pieces(text) + [line]
    decreases |text|
  {
    hide Pieces; hide Find;
    var p := Find(text, '\n');
    if p == |text| {
      assert text + "\n" + line == text + ['\n'] + line;
      PiecesStep(text, line);
      PiecesOne(line);
      PiecesOne(text);
    } else {
      var head, tail := text[..p], text[p + 1..];
      assert text == head + ['\n'] + tail;
      assert text + "\n" + line == head + ['\n'] + (tail + "\n" + line);
      PiecesStep(head, tail + "\n" + line);
      PiecesStep(head, tail);
      PiecesSnoc(tail, line);
      assert [head] + (Pieces(tail) + [line]) == [head] + Pieces(tail) + [line];
    }
  }

  // -------------------------------------------------------------------------------- reading

  /** While a file is read: what there is so far, the open section, and the field that an
      indented line would continue (none when empty). */
  datatype Progress = Progress(file: File, section: Option<string>, field: string)

  datatype Problem = SectionNotClosed | SectionEmpty | FieldWithoutSection | NoSeparator

  /** `Rejected` carries the number of the offending line and what had been read by then. */
  datatype Reading = Going(progress: Progress) | Rejected(problem: Problem, lineNo: nat, file: File)

  const NOTHING: Progress := Progress(map[], None, "")

  function FieldsOf(file: File, section: string): Section { if section in file then file[section] else map[] }

  function ValueOf(s: Section, field: string): string { if field in s then s[field] else "" }

  function OpenSection(p: Progress, name: string): Progress {
    Progress(p.file[name := FieldsOf(p.file, name)], Some(name), "")
  }

  function SetField(p: Progress, section: string, field: string, value: string, open: string): Progress {
    Progress(p.file[section := FieldsOf(p.file, section)[field := value]], p.section, open)
  }

  /** One line, already without its comment. */
  function ReadLine(p: Progress, text: string, lineNo: nat): Reading {
    var line := Trim(text);
    if line == "" then Going(p)
    else if line[0] == '[' then
      var pos := Find(line, ']');
      if pos == |line| then Rejected(SectionNotClosed, lineNo, p.file)
      else if pos == 1 then Rejected(SectionEmpty, lineNo, p.file)
      else Going(OpenSection(p, line[1..pos]))
    else if p.section.None? then Rejected(FieldWithoutSection, lineNo, p.file)
    else
      var section := p.section.value;
      var pos := Find(line, '=');
      if HasIndent(text) && p.field != "" then
        var previous := ValueOf(FieldsOf(p.file, section), p.field);
        Going(SetField(p, section, p.field, previous + "\n" + line, p.field))
      else if pos == |line| then Rejected(NoSeparator, lineNo, p.file)
      else
        var name := Trim(line[..pos]);
        Going(SetField(p, section, name, Trim(line[pos + 1..]), name))
  }

  function Then(r: Reading, raw: string, lineNo: nat): Reading {
    if r.Rejected? then r else ReadLine(r.progress, Uncomment(raw), lineNo)
  }

  /** The lines after the first `before` ones, from left to right. */
  function ReadFrom(r: Reading, lines: seq<string>, before: nat): Reading
    decreases |lines|
  {
    if lines == [] then r else ReadFrom(Then(r, lines[0], before + 1), lines[1..], before + 1)
  }

  /** `decode`. */
  function Decode(text: string): Reading { ReadFrom(Going(NOTHING), Pieces(text), 0) }

  lemma {:induction false} ReadFromAppend(r: Reading, a: seq<string>, b: seq<string>, before: nat)
    ensures ReadFrom(r, a + b, before) == ReadFrom(ReadFrom(r, a, before), b, before + |a|)
    decreases |a|
  {
    hide Then;
    if a == [] {
      assert a + b == b;
    } else {
      assert (a + b)[1..] == a[1..] + b;
      ReadFromAppend(Then(r, a[0], before + 1), a[1..], b, before + 1);
    }
  }

  /** A rejected text stays rejected. */
  lemma {:induction false} RejectedStays(r: Reading, lines: seq<string>, before: nat)
    requires r.Rejected?
    ensures ReadFrom(r, lines, before) == r
    decreases |lines|
  {
    if lines == [] {
    } else {
      RejectedStays(r, lines[1..], before + 1);
    }
  }

  // ------------------------------------------------------------------ what reading produces

  predicate NameOk(name: string) { name != "" && ']' !in name && '\n' !in name }

  predicate FieldOk(field: string) {
    '=' !in field && '\n' !in field && Trimmed(field) && (field == "" || field[0] != '[')
  }

  predicate ContinuationOk(line: string) { line != "" && Trimmed(line) && line[0] != '[' }

  predicate PiecesOk(ps: seq<string>) {
    |ps| >= 1 && Trimmed(ps[0]) && forall i :: 1 <= i < |ps| ==> ContinuationOk(ps[i])
  }

  /** A value is a trimmed line and trimmed, non-empty continuations that do not look like a
      section; a field without a name has no continuations. */
  predicate ValueOk(field: string, value: string) {
    PiecesOk(Pieces(value)) && (field == "" ==> '\n' !in value)
  }

  ghost predicate SectionOk(s: Section) { forall f :: f in s ==> FieldOk(f) && ValueOk(f, s[f]) }

  /** A file that can be written and read back. */
  ghost predicate Printable(file: File) { forall n :: n in file ==> NameOk(n) && SectionOk(file[n]) }

  ghost predicate ProgressOk(p: Progress) {
    && Printable(p.file)
    && (p.section.Some? ==> p.section.value in p.file)
    && (p.field != "" ==> p.section.Some? && p.field in p.file[p.section.value])
  }

  lemma {:induction false} StripAddsNothing(c: char, s: string, d: char)
    requires d !in s && d != c
    ensures d !in Strip(c, s)
    decreases |s|
  {
    var p := Find(s, c);
    if p < |s| && p > 0 && s[p - 1] == '\\' { StripAddsNothing(c, s[p + 1..], d); }
  }

  lemma ExtendedValueOk(field: string, value: string, line: string)
    requires ValueOk(field, value) && field != "" && ContinuationOk(line) && '\n' !in line
    ensures ValueOk(field, value + "\n" + line)
  {
    PiecesSnoc(value, line);
  }

  lemma NewFieldOk(line: string)
    requires line != "" && Trimmed(line) && line[0] != '[' && '\n' !in line && Find(line, '=') < |line|
    ensures var pos := Find(line, '=');
            FieldOk(Trim(line[..pos])) && ValueOk(Trim(line[..pos]), Trim(line[pos + 1..]))
  {
    var pos := Find(line, '=');
    TrimTrims(line[..pos]);
    TrimTrims(line[pos + 1..]);
    if pos > 0 { TrimKeepsFirst(line[..pos]); }
    assert '\n' !in Trim(line[pos + 1..]);
    PiecesOne(Trim(line[pos + 1..]));
  }

  lemma ReadLineKeeps(p: Progress, text: string, lineNo: nat)
    requires ProgressOk(p) && '\n' !in text
    ensures var r := ReadLine(p, text, lineNo); r.Going? ==> ProgressOk(r.progress)
  {
    hide Trim; hide Find; hide Trimmed; hide Pieces; hide FieldOk; hide ValueOk; hide HasIndent;
    var line := Trim(text);
    TrimTrims(text);
    if line != "" && line[0] != '[' && p.section.Some? {
      if HasIndent(text) && p.field != "" {
        ExtendedValueOk(p.field, p.file[p.section.value][p.field], line);
      } else if Find(line, '=') < |line| {
        NewFieldOk(line);
      }
    }
  }

  ghost predicate ReadingOk(r: Reading) { r.Going? ==> ProgressOk(r.progress) }

  lemma ThenKeeps(r: Reading, raw: string, lineNo: nat)
    requires ReadingOk(r) && '\n' !in raw
    ensures ReadingOk(Then(r, raw, lineNo))
  {
    if r.Going? {
      StripAddsNothing('#', raw, '\n');
      StripAddsNothing(';', Strip('#', raw), '\n');
      ReadLineKeeps(r.progress, Uncomment(raw), lineNo);
    }
  }

  lemma {:induction false} ReadFromKeeps(r: Reading, lines: seq<string>, before: nat)
    requires ReadingOk(r) && forall i :: 0 <= i < |lines| ==> '\n' !in lines[i]
    ensures ReadingOk(ReadFrom(r, lines, before))
    decreases |lines|
  {
    if lines == [] {
    } else {
      ThenKeeps(r, lines[0], before + 1);
      ReadFromKeeps(Then(r, lines[0], before + 1), lines[1..], before + 1);
    }
  }

  /** Whatever text is read without an error gives a file that can be written and read back. */
  lemma {:induction false} DecodedIsPrintable(text: string)
    ensures Decode(text).Going? ==> Printable(Decode(text).progress.file)
  {
    ReadFromKeeps(Going(NOTHING), Pieces(text), 0);
  }

  // -------------------------------------------------------------------------------- writing

  /** `writeEscaped`: comment prefixes are escaped and line feeds are followed by a tab. */
  function Written(s: string): string {
    if s == "" then "" else WrittenChar(s[0]) + Written(s[1..])
  }

  function WrittenChar(c: char): string {
    if c == '#' || c == ';' then ['\\', c] else if c == '\n' then "\n\t" else [c]
  }

  /** The order in which a `std::map` of sections is walked: one entry per section, with its fields. */
  datatype Entry = Entry(name: string, fields: seq<(string, string)>)

  function FieldMap(fields: seq<(string, string)>): Section {
    if fields == [] then map[] else FieldMap(fields[..|fields| - 1])[fields[|fields| - 1].0 := fields[|fields| - 1].1]
  }

  function FileOf(listing: seq<Entry>): File {
    if listing == [] then map[] else
      var e := listing[|listing| - 1];
      FileOf(listing[..|listing| - 1])[e.name := FieldMap(e.fields)]
  }

  /** No section is listed twice. */
  predicate Distinct(listing: seq<Entry>) {
    forall i, j :: 0 <= i < j < |listing| ==> listing[i].name != listing[j].name
  }

  function PrintField(field: string, value: string): string { Written(field) + "=" + Written(value) + "\n" }

  function PrintFields(fields: seq<(string, string)>): string {
    if fields == [] then "" else
      PrintFields(fields[..|fields| - 1]) + PrintField(fields[|fields| - 1].0, fields[|fields| - 1].1)
  }

  function PrintEntry(e: Entry): string { "[" + Written(e.name) + "]" + "\n" + PrintFields(e.fields) }

  /** `encode`. */
  function Print(listing: seq<Entry>): string {
    if listing == [] then "" else Print(listing[..|listing| - 1]) + PrintEntry(listing[|listing| - 1])
  }

  // -------------------------------------------------------------------- the lines of a print

  function FieldLines(field: string, value: string): seq<string> {
    var ps := Pieces(value);
    [Escape(field) + "=" + Escape(ps[0])] + Continuations(ps[1..])
  }

  function Continuations(ps: seq<string>): seq<string> {
    if ps == [] then [] else ["\t" + Escape(ps[0])] + Continuations(ps[1..])
  }

  lemma {:induction false} PiecesOfJoined(lines: seq<string>)
    requires forall i :: 0 <= i < |lines| ==> '\n' !in lines[i]
    ensures Pieces(Joined(lines)) == lines + [""]
  {
    hide Pieces;
    if lines == [] {
      PiecesOne("");
    } else {
      PiecesOfJoined(lines[1..]);
      assert Joined(lines) == lines[0] + ['\n'] + Joined(lines[1..]);
      PiecesStep(lines[0], Joined(lines[1..]));
      assert [lines[0]] + (lines[1..] + [""]) == lines + [""];
    }
  }

  lemma {:induction false} EscapeIsWritten(s: string)
    requires '\n' !in s
    ensures Written(s) == Escape(s)
  {
    if s == "" {
    } else {
      EscapeIsWritten(s[1..]);
      EscapeAppend([s[0]], s[1..]);
      assert s == [s[0]] + s[1..];
      EscapeOfOne(s[0]);
    }
  }

  lemma EscapeOneOfOne(c: char, d: char)
    ensures EscapeOne(c, [d]) == if d == c then ['\\', c] else [d]
  {
    assert [d][1..] == "";
  }

  lemma EscapeOfOne(c: char)
    ensures Escape([c]) == if c == '#' || c == ';' then ['\\', c] else [c]
  {
    EscapeOneOfOne(';', c);
    if c == ';' {
      EscapeOnePlain('#', ['\\', c]);
    } else {
      EscapeOneOfOne('#', c);
    }
  }

  lemma {:induction false} WrittenAppend(a: string, b: string)
    ensures Written(a + b) == Written(a) + Written(b)
  {
    if a == "" {
      assert a + b == b;
    } else {
      WrittenAppend(a[1..], b);
      assert (a + b)[1..] == a[1..] + b && (a + b)[0] == a[0];
      var x := WrittenChar(a[0]);
      assert x + (Written(a[1..]) + Written(b)) == (x + Written(a[1..])) + Written(b);
    }
  }

  /** A written value is the lines of its pieces, continuations indented. */
  lemma {:induction false} WrittenValue(value: string)
    ensures Written(value) + "\n" == Escape(Pieces(value)[0]) + "\n" + Joined(Continuations(Pieces(value)[1..]))
    decreases |value|
  {
    var p := Find(value, '\n');
    if p == |value| {
      EscapeIsWritten(value);
      assert Pieces(value)[1..] == [];
    } else {
      var head, tail := value[..p], value[p + 1..];
      WrittenPiece(value, head, tail);
      WrittenValue(tail);
      assert value == head + ['\n'] + tail;
      PiecesStep(head, tail);
      WrittenNext(head, Written(tail), Pieces(tail));
      assert Pieces(value)[0] == head && Pieces(value)[1..] == Pieces(tail);
    }
  }

  lemma WrittenNext(head: string, tail: string, ps: seq<string>)
    requires |ps| >= 1 && tail + "\n" == Escape(ps[0]) + "\n" + Joined(Continuations(ps[1..]))
    ensures Escape(head) + "\n\t" + tail + "\n" == Escape(head) + "\n" + Joined(Continuations(ps))
  {
    JoinedCons("\t" + Escape(ps[0]), Continuations(ps[1..]));
    Indented(Escape(head), tail, Escape(ps[0]), Joined(Continuations(ps[1..])));
  }

  lemma Indented(a: string, tail: string, first: string, rest: string)
    requires tail + "\n" == first + "\n" + rest
    ensures a + "\n\t" + tail + "\n" == a + "\n" + ("\t" + first + "\n" + rest)
  {
    assert a + "\n\t" + tail + "\n" == a + "\n" + ("\t" + (tail + "\n"));
    assert "\t" + first + "\n" + rest == "\t" + (first + "\n" + rest);
  }

  lemma WrittenLineFeed(tail: string)
    ensures Written(['\n'] + tail) == "\n\t" + Written(tail)
  {
    assert (['\n'] + tail)[1..] == tail;
  }

  lemma WrittenPiece(value: string, head: string, tail: string)
    requires value == head + ['\n'] + tail && '\n' !in head
    ensures Written(value) == Escape(head) + "\n\t" + Written(tail)
  {
    hide Escape; hide Written;
    assert value == head + (['\n'] + tail);
    WrittenAppend(head, ['\n'] + tail);
    EscapeIsWritten(head);
    WrittenLineFeed(tail);
    assert Escape(head) + ("\n\t" + Written(tail)) == Escape(head) + "\n\t" + Written(tail);
  }

  lemma PrintFieldLines(field: string, value: string)
    requires '\n' !in field
    ensures PrintField(field, value) == Joined(FieldLines(field, value))
  {
    var ps := Pieces(value);
    EscapeIsWritten(field);
    WrittenValue(value);
    PrintedParts(Escape(field) + "=", Written(value), Escape(ps[0]), Joined(Continuations(ps[1..])));
    JoinedCons(Escape(field) + "=" + Escape(ps[0]), Continuations(ps[1..]));
  }

  lemma PrintedParts(a: string, written: string, first: string, rest: string)
    requires written + "\n" == first + "\n" + rest
    ensures a + written + "\n" == a + first + "\n" + rest
  {
    assert a + written + "\n" == a + (written + "\n");
    assert a + (first + "\n" + rest) == a + first + "\n" + rest;
  }

  function FieldsLines(fields: seq<(string, string)>): seq<string> {
    if fields == [] then [] else
      FieldsLines(fields[..|fields| - 1]) + FieldLines(fields[|fields| - 1].0, fields[|fields| - 1].1)
  }

  function EntryLines(e: Entry): seq<string> { ["[" + Escape(e.name) + "]"] + FieldsLines(e.fields) }

  function ListingLines(listing: seq<Entry>): seq<string> {
    if listing == [] then [] else ListingLines(listing[..|listing| - 1]) + EntryLines(listing[|listing| - 1])
  }

  predicate FieldsOk(fields: seq<(string, string)>) {
    forall i :: 0 <= i < |fields| ==> FieldOk(fields[i].0) && ValueOk(fields[i].0, fields[i].1)
  }

  predicate ListingOk(listing: seq<Entry>) {
    forall i :: 0 <= i < |listing| ==> NameOk(listing[i].name) && FieldsOk(listing[i].fields)
  }

  lemma {:induction false} PrintFieldsLines(fields: seq<(string, string)>)
    requires FieldsOk(fields)
    ensures PrintFields(fields) == Joined(FieldsLines(fields))
  {
    if fields == [] {
    } else {
      var front, last := fields[..|fields| - 1], fields[|fields| - 1];
      PrintFieldsLines(front);
      PrintFieldLines(last.0, last.1);
      JoinedAppend(FieldsLines(front), FieldLines(last.0, last.1));
    }
  }

  lemma PrintEntryLines(e: Entry)
    requires NameOk(e.name) && FieldsOk(e.fields)
    ensures PrintEntry(e) == Joined(EntryLines(e))
  {
    PrintFieldsLines(e.fields);
    EscapeIsWritten(e.name);
    JoinedCons("[" + Escape(e.name) + "]", FieldsLines(e.fields));
  }

  lemma {:induction false} PrintLines(listing: seq<Entry>)
    requires ListingOk(listing)
    ensures Print(listing) == Joined(ListingLines(listing))
  {
    if listing == [] {
    } else {
      var front, last := listing[..|listing| - 1], listing[|listing| - 1];
      PrintLines(front);
      PrintEntryLines(last);
      JoinedAppend(ListingLines(front), EntryLines(last));
    }
  }

  // ----------------------------------------------------------------- lines have no line feed

  predicate OneLine(lines: seq<string>) { forall i :: 0 <= i < |lines| ==> '\n' !in lines[i] }

  lemma {:induction false} EscapeOneAddsNothing(c: char, s: string)
    requires '\n' !in s && c != '\n'
    ensures '\n' !in EscapeOne(c, s)
  {
    if s == "" {
    } else {
      EscapeOneAddsNothing(c, s[1..]);
    }
  }

  lemma EscapeAddsNothing(s: string)
    requires '\n' !in s
    ensures '\n' !in Escape(s)
  {
    EscapeOneAddsNothing(';', s);
    EscapeOneAddsNothing('#', EscapeOne(';', s));
  }

  lemma {:induction false} ContinuationsOneLine(ps: seq<string>)
    requires OneLine(ps)
    ensures OneLine(Continuations(ps))
  {
    if ps == [] {
    } else {
      EscapeAddsNothing(ps[0]);
      ContinuationsOneLine(ps[1..]);
    }
  }

  lemma FieldLinesOneLine(field: string, value: string)
    requires '\n' !in field
    ensures OneLine(FieldLines(field, value))
  {
    var ps := Pieces(value);
    EscapeAddsNothing(field);
    EscapeAddsNothing(ps[0]);
    ContinuationsOneLine(ps[1..]);
  }

  lemma {:induction false} FieldsLinesOneLine(fields: seq<(string, string)>)
    requires FieldsOk(fields)
    ensures OneLine(FieldsLines(fields))
  {
    if fields == [] {
    } else {
      FieldsLinesOneLine(fields[..|fields| - 1]);
      FieldLinesOneLine(fields[|fields| - 1].0, fields[|fields| - 1].1);
    }
  }

  lemma {:induction false} ListingOneLine(listing: seq<Entry>)
    requires ListingOk(listing)
    ensures OneLine(ListingLines(listing))
  {
    if listing == [] {
    } else {
      var e := listing[|listing| - 1];
      ListingOneLine(listing[..|listing| - 1]);
      EscapeAddsNothing(e.name);
      FieldsLinesOneLine(e.fields);
    }
  }

  // ---------------------------------------------------------------------------- reading back

  lemma ReadSectionLine(p: Progress, name: string, lineNo: nat)
    requires NameOk(name)
    ensures Then(Going(p), "[" + Escape(name) + "]", lineNo) == Going(OpenSection(p, name))
  {
    hide Escape; hide EscapeOne; hide Strip; hide Trim; hide Find;
    var line := "[" + name + "]";
    EscapeAppend("[", name);
    EscapeAppend("[" + name, "]");
    EscapeOfOne('[');
    EscapeOfOne(']');
    UncommentUndoesEscape(line);
    TrimOfTrimmed(line);
    assert line == "[" + name + [']'] + "";
    FindAt("[" + name, ']', "");
    assert line[1..|name| + 1] == name;
  }

  lemma FieldLineShape(field: string, first: string)
    requires FieldOk(field) && Trimmed(first)
    ensures var line := field + "=" + first;
            && Trim(line) == line && line[0] != '[' && !HasIndent(line)
            && Find(line, '=') == |field| && line[..|field|] == field && line[|field| + 1..] == first
  {
    var line := field + "=" + first;
    assert line == field + ['='] + first;
    FindAt(field, '=', first);
    assert line[0] == (if field == "" then '=' else field[0]);
    assert line[|line| - 1] == (if first == "" then '=' else first[|first| - 1]);
    TrimOfTrimmed(line);
  }

  lemma EscapedFieldLine(field: string, first: string)
    ensures Uncomment(Escape(field) + "=" + Escape(first)) == field + "=" + first
  {
    EscapeAppend(field, "=");
    EscapeAppend(field + "=", first);
    EscapeOfOne('=');
    UncommentUndoesEscape(field + "=" + first);
  }

  lemma ReadFieldLine(p: Progress, section: string, field: string, first: string, lineNo: nat)
    requires p.section == Some(section) && FieldOk(field) && Trimmed(first)
    ensures Then(Going(p), Escape(field) + "=" + Escape(first), lineNo)
         == Going(SetField(p, section, field, first, field))
  {
    EscapedFieldLine(field, first);
    FieldLineShape(field, first);
    TrimOfTrimmed(field);
    TrimOfTrimmed(first);
  }

  lemma ReadContinuation(p: Progress, section: string, piece: string, lineNo: nat)
    requires p.section == Some(section) && p.field != "" && ContinuationOk(piece)
    ensures Then(Going(p), "\t" + Escape(piece), lineNo)
         == Going(SetField(p, section, p.field, ValueOf(FieldsOf(p.file, section), p.field) + "\n" + piece, p.field))
  {
    var line := "\t" + piece;
    EscapeAppend("\t", piece);
    EscapeOfOne('\t');
    UncommentUndoesEscape(line);
    TrimOfIndented(piece);
  }

  /** A first line and its continuations as one value. */
  function Lined(first: string, more: seq<string>): string
    decreases |more|
  {
    if more == [] then first else Lined(first + "\n" + more[0], more[1..])
  }

  lemma {:induction false} LinedPrefix(a: string, b: string, more: seq<string>)
    ensures Lined(a + "\n" + b, more) == a + "\n" + Lined(b, more)
    decreases |more|
  {
    if more == [] {
    } else {
      assert a + "\n" + b + "\n" + more[0] == a + "\n" + (b + "\n" + more[0]);
      LinedPrefix(a, b + "\n" + more[0], more[1..]);
    }
  }

  lemma {:induction false} LinedPieces(value: string)
    ensures Lined(Pieces(value)[0], Pieces(value)[1..]) == value
    decreases |value|
  {
    var p := Find(value, '\n');
    if p < |value| {
      var head, tail := value[..p], value[p + 1..];
      assert value == head + ['\n'] + tail && value == head + "\n" + tail;
      PiecesStep(head, tail);
      LinedPieces(tail);
      var ps := Pieces(tail);
      assert Pieces(value)[0] == head && Pieces(value)[1..] == ps;
      LinedPrefix(head, ps[0], ps[1..]);
    }
  }

  lemma SetFieldTwice(p: Progress, section: string, field: string, value: string, next: string)
    ensures var q := SetField(p, section, field, value, field);
            && ValueOf(FieldsOf(q.file, section), field) == value
            && SetField(q, section, field, next, field) == SetField(p, section, field, next, field)
  {
    var q := SetField(p, section, field, value, field);
    var fields := FieldsOf(p.file, section);
    assert FieldsOf(q.file, section) == fields[field := value];
    assert fields[field := value][field := next] == fields[field := next];
    assert q.file[section := fields[field := next]] == p.file[section := fields[field := next]];
  }

  lemma {:induction false} ReadContinuations(p: Progress, section: string, field: string, first: string,
                                             more: seq<string>, before: nat)
    requires p.section == Some(section) && field != "" && forall i :: 0 <= i < |more| ==> ContinuationOk(more[i])
    ensures ReadFrom(Going(SetField(p, section, field, first, field)), Continuations(more), before)
         == Going(SetField(p, section, field, Lined(first, more), field))
    decreases |more|
  {
    if more == [] {
    } else {
      var q := SetField(p, section, field, first, field);
      var next := first + "\n" + more[0];
      ReadContinuation(q, section, more[0], before + 1);
      SetFieldTwice(p, section, field, first, next);
      ReadFromCons(Going(q), "\t" + Escape(more[0]), Continuations(more[1..]), before);
      ReadContinuations(p, section, field, next, more[1..], before + 1);
    }
  }

  lemma ReadFromCons(r: Reading, line: string, lines: seq<string>, before: nat)
    ensures ReadFrom(r, [line] + lines, before) == ReadFrom(Then(r, line, before + 1), lines, before + 1)
  {
    assert ([line] + lines)[1..] == lines;
  }

  lemma ReadFieldLines(p: Progress, section: string, field: string, value: string, before: nat)
    requires p.section == Some(section) && FieldOk(field) && ValueOk(field, value)
    ensures ReadFrom(Going(p), FieldLines(field, value), before) == Going(SetField(p, section, field, value, field))
  {
    var ps := Pieces(value);
    ReadFieldLine(p, section, field, ps[0], before + 1);
    ReadFromCons(Going(p), Escape(field) + "=" + Escape(ps[0]), Continuations(ps[1..]), before);
    LinedPieces(value);
    if field == "" {
      assert ps[1..] == [];
    } else {
      ReadContinuations(p, section, field, ps[0], ps[1..], before + 1);
    }
  }

  function LastField(fields: seq<(string, string)>): string { if fields == [] then "" else fields[|fields| - 1].0 }

  /** Inside a section whose fields so far are `fields`. */
  function Within(file: File, section: string, fields: Section, field: string): Reading {
    Going(Progress(file[section := fields], Some(section), field))
  }

  lemma ReadNextField(file: File, section: string, fields: Section, open: string, field: string, value: string,
                      before: nat)
    requires FieldOk(field) && ValueOk(field, value)
    ensures ReadFrom(Within(file, section, fields, open), FieldLines(field, value), before)
         == Within(file, section, fields[field := value], field)
  {
    hide ReadFrom; hide FieldLines; hide FieldOk; hide ValueOk;
    var p := Progress(file[section := fields], Some(section), open);
    ReadFieldLines(p, section, field, value, before);
    assert p.file[section := fields[field := value]] == file[section := fields[field := value]];
  }

  lemma {:induction false} ReadFieldsLines(file: File, section: string, fields: seq<(string, string)>, before: nat)
    requires FieldsOk(fields)
    ensures ReadFrom(Within(file, section, map[], ""), FieldsLines(fields), before)
         == Within(file, section, FieldMap(fields), LastField(fields))
  {
    hide Then;
    if fields == [] {
    } else {
      var front, last := fields[..|fields| - 1], fields[|fields| - 1];
      ReadFieldsLines(file, section, front, before);
      ReadFromAppend(Within(file, section, map[], ""), FieldsLines(front), FieldLines(last.0, last.1), before);
      ReadNextField(file, section, FieldMap(front), LastField(front), last.0, last.1, before + |FieldsLines(front)|);
    }
  }

  lemma ReadEntryLines(p: Progress, e: Entry, before: nat)
    requires NameOk(e.name) && FieldsOk(e.fields) && e.name !in p.file
    ensures ReadFrom(Going(p), EntryLines(e), before) == Within(p.file, e.name, FieldMap(e.fields), LastField(e.fields))
  {
    ReadFromCons(Going(p), "[" + Escape(e.name) + "]", FieldsLines(e.fields), before);
    ReadSectionLine(p, e.name, before + 1);
    ReadFieldsLines(p.file, e.name, e.fields, before + 1);
  }

  lemma {:induction false} NotYetListed(listing: seq<Entry>, name: string)
    requires forall i :: 0 <= i < |listing| ==> listing[i].name != name
    ensures name !in FileOf(listing)
  {
    if listing == [] {
    } else {
      NotYetListed(listing[..|listing| - 1], name);
    }
  }

  lemma {:induction false} ReadListingLines(listing: seq<Entry>)
    requires ListingOk(listing) && Distinct(listing)
    ensures var r := ReadFrom(Going(NOTHING), ListingLines(listing), 0);
            r.Going? && r.progress.file == FileOf(listing)
  {
    hide Then; hide EntryLines; hide FieldMap; hide NameOk; hide FieldsOk;
    if listing == [] {
    } else {
      var front, e := listing[..|listing| - 1], listing[|listing| - 1];
      ReadListingLines(front);
      NotYetListed(front, e.name);
      var r := ReadFrom(Going(NOTHING), ListingLines(front), 0);
      ReadFromAppend(Going(NOTHING), ListingLines(front), EntryLines(e), 0);
      ReadEntryLines(r.progress, e, |ListingLines(front)|);
    }
  }

  /** The listing has every section of the file once, and every field with its value. */
  ghost predicate Lists(listing: seq<Entry>, file: File) {
    && Distinct(listing) && FileOf(listing) == file
    && forall i :: 0 <= i < |listing| ==> ListsFields(listing[i], file)
  }

  predicate ListsFields(e: Entry, file: File) {
    e.name in file && forall j :: 0 <= j < |e.fields| ==>
      e.fields[j].0 in file[e.name] && file[e.name][e.fields[j].0] == e.fields[j].1
  }

  /** The text is read, and the file is what it says. */
  predicate ReadsBack(text: string, file: File) { Decode(text).Going? && Decode(text).progress.file == file }

  /** A printable file is read back from its own text. */
  lemma PrintedReadsBack(listing: seq<Entry>, file: File)
    requires Lists(listing, file) && Printable(file)
    ensures ReadsBack(Print(listing), file)
  {
    assert ListingOk(listing);
    var lines := ListingLines(listing);
    PrintLines(listing);
    ListingOneLine(listing);
    PiecesOfJoined(lines);
    ReadFromAppend(Going(NOTHING), lines, [""], 0);
    ReadListingLines(listing);
  }

  /** In whatever order its sections and fields are walked: a file is read back from its own text
      exactly when it is printable. */
  lemma {:induction false} ReadBackIffPrintable(listing: seq<Entry>, file: File)
    requires Lists(listing, file)
    ensures ReadsBack(Print(listing), file) <==> Printable(file)
  {
    hide Print; hide Lists; hide Printable; hide Decode;
    DecodedIsPrintable(Print(listing));
    if Printable(file) { PrintedReadsBack(listing, file); }
  }

  /** Writing what was read and reading it again gives the same file, for every text that can be read at all. */
  lemma {:induction false} DecodeEncodeDecode(text: string, listing: seq<Entry>)
    requires Decode(text).Going? && Lists(listing, Decode(text).progress.file)
    ensures ReadsBack(Print(listing), Decode(text).progress.file)
  {
    DecodedIsPrintable(text);
    ReadBackIffPrintable(listing, Decode(text).progress.file);
  }
}
