/** The append-only ticket file: one `ticket,voter,secret` line per issued ticket. */
module TicketFile {
  import opened Text

  datatype Entry = Entry(voterId: uint32, secret: string)
  type Tickets = map<string, Entry>

  datatype Parsed = Good(ticket: string, entry: Entry) | Bad

  /** One line of the file. */
  function ParseLine(line: string): Parsed {
    var a := GetField(line, ',');
    if a.Failed? then Bad else
      var b := GetField(a.rest, ',');
      if b.Failed? then Bad else
        var c := GetField(b.rest, '\n');
        if c.Failed? then Bad else
          match ParseUlong(b.field)
          case Number(n) => Good(a.field, Entry(Narrow32(n), c.field))
          case InvalidArgument => Bad
          case OutOfRange => Bad
  }

  function Apply(m: Tickets, line: string): Tickets {
    var p := ParseLine(line);
    if p.Good? then m[p.ticket := p.entry] else m
  }

  function ApplyAll(m: Tickets, lines: seq<string>): Tickets {
    if lines == [] then m else Apply(ApplyAll(m, lines[..|lines| - 1]), lines[|lines| - 1])
  }

  /** The last-wins reading of a ticket file. */
  function Contents(file: string): Tickets { ApplyAll(map[], Lines(file)) }

  /** The line `write_to_csv` appends. */
  function Line(ticket: string, voterId: uint32, secret: string): string {
    ticket + "," + Dec(voterId) + "," + secret
  }

  /** Re-reading the file into a map that already has entries adds its last-wins contents. */
  lemma {:induction false} ApplyAllMerges(m: Tickets, lines: seq<string>)
    ensures ApplyAll(m, lines) == m + ApplyAll(map[], lines)
  {
    hide ParseLine;
    if lines == [] {
    } else {
      ApplyAllMerges(m, lines[..|lines| - 1]);
    }
  }

  lemma NoDelimiterInHex(s: string, c: char)
    requires IsHex(s) && !IsHexDigit(c)
    ensures c !in s
  {}

  lemma NoDelimiterInDec(n: nat, c: char)
    requires !IsDigit(c)
    ensures c !in Dec(n)
  {}

  lemma ParseParts(ticket: string, id: string, n: uint32, secret: string)
    requires ',' !in ticket && ',' !in id && '\n' !in secret && secret != ""
    requires ParseUlong(id) == Number(n)
    ensures ParseLine(ticket + "," + id + "," + secret) == Good(ticket, Entry(n, secret))
  {
    var rest := id + [','] + secret;
    assert ticket + "," + id + "," + secret == ticket + [','] + rest;
    GetFieldAt(ticket, ',', rest);
    GetFieldAt(id, ',', secret);
  }

  /** A hexadecimal ticket and secret and a decimal voter id survive the comma-separated line. */
  lemma {:induction false} ParseLineOfLine(ticket: string, voterId: uint32, secret: string)
    requires IsHex(ticket) && IsHex(secret) && secret != ""
    ensures ParseLine(Line(ticket, voterId, secret)) == Good(ticket, Entry(voterId, secret))
  {
    NoDelimiterInHex(ticket, ',');
    NoDelimiterInHex(secret, '\n');
    NoDelimiterInDec(voterId, ',');
    ParseUlongOfWhole(voterId);
    ParseParts(ticket, Dec(voterId), voterId, secret);
  }

  lemma LineIsOneLine(ticket: string, voterId: uint32, secret: string)
    requires IsHex(ticket) && IsHex(secret)
    ensures '\n' !in Line(ticket, voterId, secret)
  {
    NoDelimiterInHex(ticket, '\n');
    NoDelimiterInHex(secret, '\n');
    NoDelimiterInDec(voterId, '\n');
  }

  lemma ApplyAllStep(lines: seq<string>, line: string)
    ensures ApplyAll(map[], lines + [line]) == Apply(ApplyAll(map[], lines), line)
  {
    var ls := lines + [line];
    assert ls[..|ls| - 1] == lines && ls[|ls| - 1] == line;
  }

  /** Appending an issued ticket to a file adds exactly that ticket to its contents. */
  lemma {:induction false} ContentsAppend(file: string, ticket: string, voterId: uint32, secret: string)
    requires Terminated(file) && IsHex(ticket) && IsHex(secret) && secret != ""
    ensures Contents(file + Line(ticket, voterId, secret) + "\n")
         == Contents(file)[ticket := Entry(voterId, secret)]
    ensures Terminated(file + Line(ticket, voterId, secret) + "\n")
  {
    var line := Line(ticket, voterId, secret);
    ParseLineOfLine(ticket, voterId, secret);
    LineIsOneLine(ticket, voterId, secret);
    LinesAppend(file, line);
    ApplyAllStep(Lines(file), line);
  }

  // ------------------------------------------------------------------- the file as a text

  /** The line is a ticket, a number that `std::stoul` can read, and a secret, with commas between them. */
  predicate Names(line: string, ticket: string, id: string, secret: string) {
    && ',' !in ticket && ',' !in id && secret != "" && '\n' !in secret && ParseUlong(id).Number?
    && line == ticket + "," + id + "," + secret
  }

  lemma CutAtComma(s: string)
    requires GetField(s, ',').Extracted? && GetField(s, ',').rest != ""
    ensures var f := GetField(s, ','); s == f.field + "," + f.rest && ',' !in f.field
  {}

  lemma NotEmptyBehind(s: string, delim: char)
    requires GetField(s, delim).Extracted?
    ensures s != ""
  {}

  lemma WholeRest(s: string)
    requires s != "" && '\n' !in s
    ensures GetField(s, '\n') == Extracted(s, "")
  {}

  /** A line is read as a ticket exactly if it has that form. */
  lemma GoodIffNames(line: string)
    requires '\n' !in line
    ensures forall t, id, x :: Names(line, t, id, x) ==>
              ParseLine(line) == Good(t, Entry(Narrow32(ParseUlong(id).n), x))
    ensures ParseLine(line).Good? ==> exists t, id, x :: Names(line, t, id, x)
  {
    hide ParseUlong; hide GetField;
    forall t, id, x | Names(line, t, id, x) ensures ParseLine(line) == Good(t, Entry(Narrow32(ParseUlong(id).n), x)) {
      GetFieldAt(t, ',', id + "," + x);
      assert line == t + [','] + (id + "," + x) && id + "," + x == id + [','] + x;
      GetFieldAt(id, ',', x);
      WholeRest(x);
    }
    if ParseLine(line).Good? {
      var a := GetField(line, ',');
      var b := GetField(a.rest, ',');
      NotEmptyBehind(a.rest, ',');
      NotEmptyBehind(b.rest, '\n');
      CutAtComma(line);
      CutAtComma(a.rest);
      assert line == a.field + "," + b.field + "," + b.rest;
      assert '\n' !in b.rest by { assert forall c :: c in b.rest ==> c in line; }
      WholeRest(b.rest);
      assert Names(line, a.field, b.field, b.rest);
    }
  }

  /** Line `i` is the last one that names the ticket, and it gives this voter and secret. */
  ghost predicate LastNamed(lines: seq<string>, ticket: string, i: nat, entry: Entry) {
    && i < |lines|
    && (exists id :: Names(lines[i], ticket, id, entry.secret) && entry.voterId == ParseUlong(id).n % 4294967296)
    && forall j, id, x :: i < j < |lines| ==> !Names(lines[j], ticket, id, x)
  }

  /** What the ticket file says, told from its lines: a ticket is on file exactly if some line names it, with
      the voter and the secret of the last line that does; lines of any other form are passed over. */
  lemma {:induction false} TicketsInText(file: string, lines: seq<string>, ticket: string)
    requires ConsistsOf(file, lines)
    ensures ticket in Contents(file) <==> exists i, id, x :: 0 <= i < |lines| && Names(lines[i], ticket, id, x)
    ensures forall i: nat, e :: LastNamed(lines, ticket, i, e) ==>
              ticket in Contents(file) && Contents(file)[ticket] == e
  {
    LinesAre(file, lines);
    InApplied(lines, ticket);
    forall i: nat, e | LastNamed(lines, ticket, i, e)
      ensures ticket in Contents(file) && Contents(file)[ticket] == e
    {
      LastApplied(lines, ticket, i, e);
    }
  }

  lemma {:induction false} InApplied(lines: seq<string>, ticket: string)
    requires forall i :: 0 <= i < |lines| ==> '\n' !in lines[i]
    ensures ticket in ApplyAll(map[], lines) <==> exists i, id, x :: 0 <= i < |lines| && Names(lines[i], ticket, id, x)
  {
    hide ParseLine; hide Names;
    if lines == [] {
    } else {
      var front, last := lines[..|lines| - 1], lines[|lines| - 1];
      InApplied(front, ticket);
      GoodIffNames(last);
      if ParseLine(last).Good? {
        var t, id, x :| Names(last, t, id, x);
        if t == ticket { assert Names(lines[|lines| - 1], ticket, id, x); }
      }
      assert forall i :: 0 <= i < |front| ==> front[i] == lines[i];
    }
  }

  lemma {:induction false} LastApplied(lines: seq<string>, ticket: string, i: nat, e: Entry)
    requires forall k :: 0 <= k < |lines| ==> '\n' !in lines[k]
    requires LastNamed(lines, ticket, i, e)
    ensures ticket in ApplyAll(map[], lines) && ApplyAll(map[], lines)[ticket] == e
    decreases |lines|
  {
    hide ParseLine; hide Names; hide ParseUlong;
    var front, last := lines[..|lines| - 1], lines[|lines| - 1];
    GoodIffNames(last);
    if i < |front| {
      assert forall k :: 0 <= k < |front| ==> front[k] == lines[k];
      LastApplied(front, ticket, i, e);
      if ParseLine(last).Good? { var t, id, x :| Names(last, t, id, x); }
    }
  }
}
