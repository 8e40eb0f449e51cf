/** The configuration file object: the loops that read and write it in place. */
module IniFile {
  import opened Text
  import opened Ini

  const COMMENT_PREFIXES: seq<string> := ["#", ";"]

  /** `trim`. */
  method TrimInPlace(str: string) returns (r: string)
    ensures r == Trim(str)
  {
    r := str;
    while r != "" && IsSpace(r[|r| - 1])
      invariant TrimRight(r) == TrimRight(str)
      decreases |r|
    {
      r := r[..|r| - 1];
    }
    while r != "" && IsSpace(r[0])
      invariant SkipSpace(r) == Trim(str)
      decreases |r|
    {
      r := r[1..];
    }
  }

  /** `eraseComment`: what lies before `startpos` is done, and ends in a comment prefix that stays. */
  method EraseComment(prefix: char, str: string, startpos: nat) returns (r: string)
    requires startpos <= |str| && prefix != '\\' && (startpos > 0 ==> str[startpos - 1] == prefix)
    ensures r == str[..startpos] + Strip(prefix, str[startpos..])
    decreases |str| - startpos
  {
    hide Strip; hide Find;
    var prefixpos := startpos + Find(str[startpos..], prefix);
    if prefixpos == |str| {
      StripCut(prefix, str[startpos..], prefixpos - startpos);
      assert str == str[..startpos] + str[startpos..];
      return str;
    }
    if prefixpos != 0 && str[prefixpos - 1] == '\\' {
      var shorter := str[..prefixpos - 1] + str[prefixpos..];
      r := EraseComment(prefix, shorter, prefixpos);
      ErasedEscape(prefix, str, startpos, prefixpos);
    } else {
      r := str[..prefixpos];
      StripCut(prefix, str[startpos..], prefixpos - startpos);
      FrontOf(str, startpos, prefixpos);
    }
  }

  lemma FrontOf(str: string, i: nat, j: nat)
    requires i <= j <= |str|
    ensures str[..j] == str[..i] + str[i..][..j - i]
  {}

  lemma StripEscaped(prefix: char, s: string, q: nat)
    requires 0 < q < |s| && q == Find(s, prefix) && s[q - 1] == '\\'
    ensures Strip(prefix, s) == s[..q - 1] + [prefix] + Strip(prefix, s[q + 1..])
  {}

  lemma StripCut(prefix: char, s: string, q: nat)
    requires q == Find(s, prefix) && (0 < q < |s| ==> s[q - 1] != '\\')
    ensures Strip(prefix, s) == s[..q]
  {
    assert q == |s| ==> s[..q] == s;
  }

  lemma ErasedEscape(prefix: char, str: string, startpos: nat, prefixpos: nat)
    requires startpos < prefixpos < |str| && str[prefixpos] == prefix && str[prefixpos - 1] == '\\'
    requires prefixpos == startpos + Find(str[startpos..], prefix)
    ensures var shorter := str[..prefixpos - 1] + str[prefixpos..];
            shorter[..prefixpos] + Strip(prefix, shorter[prefixpos..])
            == str[..startpos] + Strip(prefix, str[startpos..])
  {
    hide Strip; hide Find;
    var shorter := str[..prefixpos - 1] + str[prefixpos..];
    var rest, q := str[startpos..], prefixpos - startpos;
    assert shorter[prefixpos..] == rest[q + 1..];
    assert shorter[..prefixpos] == str[..startpos] + (rest[..q - 1] + [prefix]);
    var tail := Strip(prefix, rest[q + 1..]);
    StripEscaped(prefix, rest, q);
    assert str[..startpos] + (rest[..q - 1] + [prefix]) + tail == str[..startpos] + (rest[..q - 1] + [prefix] + tail);
  }

  /** `eraseComments`: one pass per comment prefix. */
  method EraseComments(str: string) returns (r: string)
    ensures r == Uncomment(str)
  {
    r := EraseComment('#', str, 0);
    assert str[0..] == str && str[..0] == "";
    assert r == Strip('#', str);
    var once := r;
    r := EraseComment(';', once, 0);
    assert once[0..] == once && once[..0] == "";
  }

  /** `findCommentPrefix`: which prefix starts at `startpos`; their number when none does. */
  method FindCommentPrefix(str: string, startpos: nat) returns (i: nat)
    ensures i <= |COMMENT_PREFIXES|
    ensures i < |COMMENT_PREFIXES| <==> startpos < |str| && (str[startpos] == '#' || str[startpos] == ';')
    ensures i < |COMMENT_PREFIXES| ==> COMMENT_PREFIXES[i] == [str[startpos]]
  {
    if startpos >= |str| { return |COMMENT_PREFIXES|; }
    i := 0;
    while i < |COMMENT_PREFIXES|
      invariant i <= |COMMENT_PREFIXES|
      invariant forall k :: 0 <= k < i ==> COMMENT_PREFIXES[k] != [str[startpos]]
    {
      if COMMENT_PREFIXES[i] <= str[startpos..] {
        assert COMMENT_PREFIXES[i] == [str[startpos]];
        return;
      }
      i := i + 1;
    }
    assert COMMENT_PREFIXES[0] != [str[startpos]] && COMMENT_PREFIXES[1] != [str[startpos]];
  }

  lemma WrittenSnoc(str: string, i: nat)
    requires i < |str|
    ensures Written(str[..i + 1]) == Written(str[..i]) + WrittenChar(str[i])
  {
    assert str[..i + 1] == str[..i] + [str[i]];
    WrittenAppend(str[..i], [str[i]]);
    assert Written([str[i]]) == WrittenChar(str[i]) + Written([str[i]][1..]);
  }

  /** `writeEscaped`, onto what the stream already has. */
  method WriteEscaped(os: string, str: string) returns (out: string)
    ensures out == os + Written(str)
  {
    hide Written;
    NothingWritten(str);
    out := os;
    var i := 0;
    while i < |str|
      invariant 0 <= i <= |str|
      invariant out == os + Written(str[..i])
    {
      WrittenSnoc(str, i);
      ghost var done := Written(str[..i]);
      var k := FindCommentPrefix(str, i);
      var piece := [str[i]];
      if k < |COMMENT_PREFIXES| {
        piece := "\\" + COMMENT_PREFIXES[k];
        assert piece == WrittenChar(str[i]);
        i := i + |COMMENT_PREFIXES[k]| - 1;
      } else if str[i] == '\n' {
        piece := "\n\t";
      }
      assert piece == WrittenChar(str[i]);
      WrittenOn(os, done, piece);
      out := out + piece;
      i := i + 1;
    }
    assert str[..|str|] == str;
  }

  lemma NothingWritten(str: string)
    ensures Written(str[..0]) == ""
  {}

  lemma WrittenOn(os: string, done: string, piece: string)
    ensures os + done + piece == os + (done + piece)
  {}

  // ----------------------------------------------------------------- the order of a std::map

  /** `std::less` on strings. */
  predicate Less(a: string, b: string) {
    b != "" && (a == "" || a[0] < b[0] || (a[0] == b[0] && Less(a[1..], b[1..])))
  }

  lemma LessTotal(a: string, b: string)
    ensures a == b || Less(a, b) || Less(b, a)
  {
    if a != "" && b != "" && a[0] == b[0] {
      LessTotal(a[1..], b[1..]);
      assert a == [a[0]] + a[1..] && b == [b[0]] + b[1..];
    }
  }

  lemma LessTransitive(a: string, b: string, c: string)
    requires Less(a, b) && Less(b, c)
    ensures Less(a, c)
  {
    if a != "" && a[0] == b[0] == c[0] { LessTransitive(a[1..], b[1..], c[1..]); }
  }

  /** The first place at which two strings differ decides, and a string comes after its own beginnings. */
  lemma {:induction false} LessIs(a: string, b: string)
    ensures Less(a, b) <==> exists k :: 0 <= k < |b| && k <= |a| && FirstDifference(a, b, k)
  {
    if a == "" {
      if b != "" { assert FirstDifference(a, b, 0); }
    } else if b != "" && a[0] == b[0] {
      LessIs(a[1..], b[1..]);
      if Less(a[1..], b[1..]) {
        var k :| 0 <= k < |b[1..]| && k <= |a[1..]| && FirstDifference(a[1..], b[1..], k);
        assert a[..k + 1] == [a[0]] + a[1..][..k] && b[..k + 1] == [b[0]] + b[1..][..k];
        assert FirstDifference(a, b, k + 1);
      }
      forall k | 0 <= k < |b| && k <= |a| && FirstDifference(a, b, k) ensures Less(a, b) {
        assert k > 0;
        assert a[1..][..k - 1] == a[..k][1..] && b[1..][..k - 1] == b[..k][1..];
        assert FirstDifference(a[1..], b[1..], k - 1);
      }
    } else if b != "" {
      if a[0] < b[0] { assert FirstDifference(a, b, 0); }
      forall k | 0 <= k < |b| && k <= |a| && FirstDifference(a, b, k) ensures k == 0 {}
    }
  }

  predicate FirstDifference(a: string, b: string, k: nat)
    requires k < |b| && k <= |a|
  {
    a[..k] == b[..k] && (k == |a| || a[k] < b[k])
  }

  ghost predicate LeastOf(k: string, keys: set<string>) {
    k in keys && forall x :: x in keys ==> x == k || Less(k, x)
  }

  /** The first key of a map. */
  method Least(keys: set<string>) returns (k: string)
    requires keys != {}
    ensures LeastOf(k, keys)
  {
    k :| k in keys;
    var rest := keys - {k};
    while rest != {}
      invariant rest <= keys && k in keys
      invariant forall x :: x in keys - rest ==> x == k || Less(k, x)
      decreases |rest|
    {
      var x :| x in rest;
      LessTotal(x, k);
      if Less(x, k) {
        forall y | y in keys - rest ensures y == x || Less(x, y) {
          if y != k { LessTransitive(x, k, y); }
        }
        k := x;
      }
      rest := rest - {x};
    }
  }

  ghost predicate AscendingFields(fields: seq<(string, string)>) {
    forall i, j :: 0 <= i < j < |fields| ==> Less(fields[i].0, fields[j].0)
  }

  ghost predicate Ascending(listing: seq<Entry>) {
    && (forall i, j :: 0 <= i < j < |listing| ==> Less(listing[i].name, listing[j].name))
    && (forall i :: 0 <= i < |listing| ==> AscendingFields(listing[i].fields))
  }

  lemma LessIrreflexive(a: string)
    ensures !Less(a, a)
  {
    if a == "" {
    } else {
      LessIrreflexive(a[1..]);
    }
  }

  // ------------------------------------------------------------------------------- the object

  class IniFile {
    var sections: File

    constructor ()
      ensures sections == map[]
    {
      sections := map[];
    }

    /** `decode`: on an error the sections hold what had been read by then. */
    method Decode(content: string) returns (failure: Option<(Problem, nat)>)
      modifies this
      ensures match Ini.Decode(content)
              case Going(p) => failure == None && sections == p.file
              case Rejected(problem, lineNo, file) => failure == Some((problem, lineNo)) && sections == file
    {
      sections := map[];
      var currentSection: Option<string> := None;
      var field := "";
      var lineNo := 0;
      var rest := content;
      var eof := false;
      while !eof
        invariant var here := Going(Progress(sections, currentSection, field));
                  Ini.Decode(content) == if eof then here else ReadFrom(here, Pieces(rest), lineNo)
        decreases !eof, |rest|
      {
        ghost var here := Going(Progress(sections, currentSection, field));
        ghost var pieces := Pieces(rest);
        var p := Find(rest, '\n');
        var raw := rest[..p];
        eof := p == |rest|;
        if eof {
          assert raw == rest && pieces == [raw] + [];
        } else {
          rest := rest[p + 1..];
          assert pieces == [raw] + Pieces(rest);
        }
        ReadFromCons(here, raw, pieces[1..], lineNo);
        lineNo := lineNo + 1;
        var text := EraseComments(raw);
        var problem: Option<Problem>;
        problem, currentSection, field := DecodeLine(text, currentSection, field, lineNo);
        if problem.Some? {
          RejectedStays(Then(here, raw, lineNo), pieces[1..], lineNo);
          return Some((problem.value, lineNo));
        }
      }
      failure := None;
    }

    /** The body of the reading loop, for one line without its comment. */
    method DecodeLine(text: string, currentSection: Option<string>, field: string, ghost lineNo: nat)
      returns (problem: Option<Problem>, section': Option<string>, field': string)
      modifies this
      ensures ReadLine(Progress(old(sections), currentSection, field), text, lineNo) ==
              if problem.Some? then Rejected(problem.value, lineNo, sections)
              else Going(Progress(sections, section', field'))
    {
      problem, section', field' := None, currentSection, field;
      var hasIndent := HasIndent(text);
      var line := TrimInPlace(text);
      if line == "" { return; }
      if line[0] == '[' {
        var pos := Find(line, ']');
        if pos == |line| {
          problem := Some(SectionNotClosed);
        } else if pos == 1 {
          problem := Some(SectionEmpty);
        } else {
          var name := line[1..pos];
          sections := sections[name := FieldsOf(sections, name)];
          section', field' := Some(name), "";
        }
      } else if currentSection.None? {
        problem := Some(FieldWithoutSection);
      } else {
        var section := currentSection.value;
        var pos := Find(line, '=');
        if hasIndent && field != "" {
          var previous := ValueOf(FieldsOf(sections, section), field);
          sections := sections[section := FieldsOf(sections, section)[field := previous + "\n" + line]];
        } else if pos == |line| {
          problem := Some(NoSeparator);
        } else {
          field' := TrimInPlace(line[..pos]);
          var value := TrimInPlace(line[pos + 1..]);
          sections := sections[section := FieldsOf(sections, section)[field' := value]];
        }
      }
    }

    /** `encode`: sections and their fields in ascending order; what is written reads back as these
        sections exactly when they are printable. */
    method Encode() returns (os: string)
      ensures exists listing :: Lists(listing, sections) && Ascending(listing) && os == Print(listing)
      ensures ReadsBack(os, sections) <==> Printable(sections)
    {
      hide ReadsBack; hide Printable;
      ghost var listing := [];
      os := "";
      var rest := sections.Keys;
      while rest != {}
        invariant os == Print(listing) && SectionsDone(listing, sections, rest)
        decreases |rest|
      {
        var name := Least(rest);
        os := os + "[";
        os := WriteEscaped(os, name);
        os := os + "]" + "\n";
        ghost var fields;
        os, fields := EncodeFields(os, sections[name]);
        PrintSnoc(listing, Entry(name, fields));
        NextSection(listing, sections, rest, Entry(name, fields));
        listing := listing + [Entry(name, fields)];
        rest := rest - {name};
      }
      AllSectionsDone(listing, sections);
      ReadBackIffPrintable(listing, sections);
    }

    method EncodeFields(os: string, section: Section) returns (out: string, ghost fields: seq<(string, string)>)
      ensures out == os + PrintFields(fields) && FieldsDone(fields, section, {})
    {
      out, fields := os, [];
      var rest := section.Keys;
      while rest != {}
        invariant out == os + PrintFields(fields) && FieldsDone(fields, section, rest)
        decreases |rest|
      {
        var field := Least(rest);
        out := WriteEscaped(out, field);
        out := out + "=";
        out := WriteEscaped(out, section[field]);
        out := out + "\n";
        PrintFieldsSnoc(os, fields, field, section[field]);
        NextField(fields, section, rest, field);
        fields := fields + [(field, section[field])];
        rest := rest - {field};
      }
    }
  }

  /** The fields that have been walked, all but those in `rest`, which come later in the order. */
  ghost predicate FieldsDone(fields: seq<(string, string)>, section: Section, rest: set<string>) {
    && rest <= section.Keys && AscendingFields(fields)
    && FieldMap(fields) == section - rest
    && forall j :: 0 <= j < |fields| ==>
         && fields[j].0 in section && section[fields[j].0] == fields[j].1
         && forall f :: f in rest ==> Less(fields[j].0, f)
  }

  lemma NextField(fields: seq<(string, string)>, section: Section, rest: set<string>, field: string)
    requires FieldsDone(fields, section, rest) && LeastOf(field, rest)
    ensures FieldsDone(fields + [(field, section[field])], section, rest - {field})
  {
    var next := fields + [(field, section[field])];
    assert next[..|fields|] == fields;
    assert FieldMap(next) == (section - rest)[field := section[field]] == section - (rest - {field});
  }

  lemma PrintFieldsSnoc(os: string, fields: seq<(string, string)>, field: string, value: string)
    ensures os + PrintFields(fields) + Written(field) + "=" + Written(value) + "\n"
         == os + PrintFields(fields + [(field, value)])
  {
    hide Written;
    assert (fields + [(field, value)])[..|fields|] == fields;
    PiecesTogether(os, PrintFields(fields), Written(field), Written(value));
  }

  lemma PiecesTogether(a: string, b: string, c: string, d: string)
    ensures a + b + c + "=" + d + "\n" == a + (b + (c + "=" + d + "\n"))
  {}

  ghost predicate SectionsDone(listing: seq<Entry>, sections: File, rest: set<string>) {
    && rest <= sections.Keys && Ascending(listing)
    && FileOf(listing) == sections - rest
    && forall i :: 0 <= i < |listing| ==>
         && ListsFields(listing[i], sections)
         && forall n :: n in rest ==> Less(listing[i].name, n)
  }

  lemma NextSection(listing: seq<Entry>, sections: File, rest: set<string>, e: Entry)
    requires SectionsDone(listing, sections, rest) && LeastOf(e.name, rest)
    requires FieldsDone(e.fields, sections[e.name], {})
    ensures SectionsDone(listing + [e], sections, rest - {e.name})
  {
    hide FieldMap; hide FileOf;
    FileSnoc(listing, e);
    assert FieldMap(e.fields) == sections[e.name];
    assert FileOf(listing + [e]) == (sections - rest)[e.name := sections[e.name]] == sections - (rest - {e.name});
  }

  lemma AllSectionsDone(listing: seq<Entry>, sections: File)
    requires SectionsDone(listing, sections, {})
    ensures Lists(listing, sections)
  {
    forall i, j | 0 <= i < j < |listing| ensures listing[i].name != listing[j].name {
      LessIrreflexive(listing[i].name);
    }
  }

  lemma PrintSnoc(listing: seq<Entry>, e: Entry)
    ensures Print(listing + [e]) == Print(listing) + "[" + Written(e.name) + "]" + "\n" + PrintFields(e.fields)
  {
    assert (listing + [e])[..|listing|] == listing;
    assert Print(listing) + ("[" + Written(e.name) + "]" + "\n" + PrintFields(e.fields))
        == Print(listing) + "[" + Written(e.name) + "]" + "\n" + PrintFields(e.fields);
  }

  lemma FileSnoc(listing: seq<Entry>, e: Entry)
    ensures FileOf(listing + [e]) == FileOf(listing)[e.name := FieldMap(e.fields)]
  {
    assert (listing + [e])[..|listing|] == listing;
  }
}
