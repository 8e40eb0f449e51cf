/** The two voter rolls: the check-in service's nine-column file with PINs, and
    the ID service's records by voter id. */
module Roll {
  import opened Text
  import opened Messages

  datatype Row = Row(uid: string, pin: string, lastName: string, firstName: string, middleName: string)

  /** Nine `std::getline` calls over one line of the roll; the columns after the names are not kept. */
  function ParseRow(line: string): Option<Row> {
    var uid := GetField(line, ',');
    if uid.Failed? then None else
      var pin := GetField(uid.rest, ',');
      if pin.Failed? then None else
        var last := GetField(pin.rest, ',');
        if last.Failed? then None else
          var first := GetField(last.rest, ',');
          if first.Failed? then None else
            var middle := GetField(first.rest, ',');
            if middle.Failed? || !HasAddress(middle.rest) then None else
              Some(Row(uid.field, pin.field, last.field, first.field, middle.field))
  }

  /** Address, city and state, each up to a comma, and then a post code. */
  predicate HasAddress(s: string) {
    var address := GetField(s, ',');
    && address.Extracted?
    && var city := GetField(address.rest, ',');
    && city.Extracted?
    && var state := GetField(city.rest, ',');
    && state.Extracted?
    && GetField(state.rest, '\n').Extracted?
  }

  predicate IsRowOf(line: string, id: uint32) {
    ParseRow(line).Some? && ParseRow(line).value.uid == Dec(id)
  }

  /** The row `find_voter` stops at: the first complete one whose first column is the decimal id. */
  function FindIn(lines: seq<string>, id: uint32): Option<Row> {
    if lines == [] then None
    else if IsRowOf(lines[0], id) then ParseRow(lines[0])
    else FindIn(lines[1..], id)
  }

  /** The search stops at the first complete row of the voter, and at no other line. */
  lemma {:induction false} FindInStopsAtFirst(lines: seq<string>, id: uint32) returns (i: nat)
    ensures i <= |lines| && forall j :: 0 <= j < i ==> !IsRowOf(lines[j], id)
    ensures if i < |lines| then IsRowOf(lines[i], id) && FindIn(lines, id) == ParseRow(lines[i])
            else FindIn(lines, id) == None
  {
    hide IsRowOf; hide ParseRow;
    if lines == [] || IsRowOf(lines[0], id) {
      i := 0;
    } else {
      var k := FindInStopsAtFirst(lines[1..], id);
      i := k + 1;
      assert forall j :: 1 <= j < |lines| ==> lines[j] == lines[1..][j - 1];
    }
  }

  function FindVoter(roll: string, id: uint32): Option<Row> { FindIn(Lines(roll), id) }

  // ------------------------------------------------------------------- the roll as a text

  /** The nine columns of a line of the roll. */
  datatype Columns = Columns(uid: string, pin: string, lastName: string, firstName: string, middleName: string,
                             address: string, city: string, state: string, postCode: string)

  /** The line is these columns with commas between them; only the last one may contain commas, and it may
      not be empty. */
  predicate Reads(line: string, c: Columns) {
    && ',' !in c.uid && ',' !in c.pin && ',' !in c.lastName && ',' !in c.firstName && ',' !in c.middleName
    && ',' !in c.address && ',' !in c.city && ',' !in c.state && c.postCode != "" && '\n' !in c.postCode
    && line == c.uid + "," + c.pin + "," + c.lastName + "," + c.firstName + "," + c.middleName + "," +
               c.address + "," + c.city + "," + c.state + "," + c.postCode
  }

  /** The columns from some place on. */
  lemma Onward(a: string, b: string)
    requires ',' !in a
    ensures GetField(a + "," + b, ',') == Extracted(a, b)
  {
    GetFieldAt(a, ',', b);
  }

  lemma AddressRead(s: string, address: string, city: string, state: string, postCode: string)
    requires ',' !in address && ',' !in city && ',' !in state && postCode != ""
    requires s == address + "," + (city + "," + (state + "," + postCode))
    ensures HasAddress(s)
  {
    hide Find;
    Onward(address, city + "," + (state + "," + postCode));
    Onward(city, state + "," + postCode);
    Onward(state, postCode);
  }

  lemma ParsedAs(line: string, uid: string, pin: string, last: string, first: string, middle: string, rest: string)
    requires ',' !in uid && ',' !in pin && ',' !in last && ',' !in first && ',' !in middle && HasAddress(rest)
    requires line == uid + "," + (pin + "," + (last + "," + (first + "," + (middle + "," + rest))))
    ensures ParseRow(line) == Some(Row(uid, pin, last, first, middle))
  {
    hide GetField; hide HasAddress;
    Onward(uid, pin + "," + (last + "," + (first + "," + (middle + "," + rest))));
    Onward(pin, last + "," + (first + "," + (middle + "," + rest)));
    Onward(last, first + "," + (middle + "," + rest));
    Onward(first, middle + "," + rest);
    Onward(middle, rest);
  }

  lemma Commas(a: string, b: string, c: string, d: string, e: string, f: string, g: string, h: string, i: string)
    ensures a + "," + b + "," + c + "," + d + "," + e + "," + f + "," + g + "," + h + "," + i
         == a + "," + (b + "," + (c + "," + (d + "," + (e + "," + (f + "," + (g + "," + (h + "," + i)))))))
  {}

  /** Which column is which. */
  lemma {:induction false} RowOfColumns(line: string, c: Columns)
    requires Reads(line, c)
    ensures ParseRow(line) == Some(Row(c.uid, c.pin, c.lastName, c.firstName, c.middleName))
  {
    hide ParseRow; hide HasAddress;
    Commas(c.uid, c.pin, c.lastName, c.firstName, c.middleName, c.address, c.city, c.state, c.postCode);
    var rest := c.address + "," + (c.city + "," + (c.state + "," + c.postCode));
    AddressRead(rest, c.address, c.city, c.state, c.postCode);
    ParsedAs(line, c.uid, c.pin, c.lastName, c.firstName, c.middleName, rest);
  }

  /** A field that is followed by another one ends at the first comma. */
  lemma CutAt(s: string)
    requires GetField(s, ',').Extracted? && GetField(s, ',').rest != ""
    ensures var f := GetField(s, ','); s == f.field + "," + f.rest && ',' !in f.field
  {}

  /** A line that is read has nine columns. */
  lemma {:induction false} ColumnsOfRow(line: string) returns (c: Columns)
    requires ParseRow(line).Some? && '\n' !in line
    ensures Reads(line, c)
  {
    hide GetField;
    var uid := GetField(line, ',');
    var pin := GetField(uid.rest, ',');
    var last := GetField(pin.rest, ',');
    var first := GetField(last.rest, ',');
    var middle := GetField(first.rest, ',');
    var address := GetField(middle.rest, ',');
    var city := GetField(address.rest, ',');
    var state := GetField(city.rest, ',');
    NotAtEnd(uid.rest, ',');
    NotAtEnd(pin.rest, ',');
    NotAtEnd(last.rest, ',');
    NotAtEnd(first.rest, ',');
    NotAtEnd(middle.rest, ',');
    NotAtEnd(address.rest, ',');
    NotAtEnd(city.rest, ',');
    NotAtEnd(state.rest, '\n');
    CutAt(line);
    CutAt(uid.rest);
    CutAt(pin.rest);
    CutAt(last.rest);
    CutAt(first.rest);
    CutAt(middle.rest);
    CutAt(address.rest);
    CutAt(city.rest);
    c := Columns(uid.field, pin.field, last.field, first.field, middle.field, address.field, city.field, state.field,
                 state.rest);
    Commas(c.uid, c.pin, c.lastName, c.firstName, c.middleName, c.address, c.city, c.state, c.postCode);
    assert forall x :: x in c.postCode ==> x in line;
  }

  lemma NotAtEnd(s: string, delim: char)
    requires GetField(s, delim).Extracted?
    ensures s != ""
  {}

  /** Line `i` has nine columns of which the first is the voter's decimal id, and no earlier line does. */
  ghost predicate FirstLineOf(lines: seq<string>, id: uint32, i: nat, c: Columns) {
    && i < |lines| && Reads(lines[i], c) && c.uid == Dec(id)
    && forall j, d :: 0 <= j < i && Reads(lines[j], d) ==> d.uid != Dec(id)
  }

  lemma LineIsRow(line: string, id: uint32)
    requires '\n' !in line
    ensures IsRowOf(line, id) <==> exists c :: Reads(line, c) && c.uid == Dec(id)
  {
    hide ParseRow; hide Dec; hide Reads;
    forall c | Reads(line, c) ensures ParseRow(line) == Some(Row(c.uid, c.pin, c.lastName, c.firstName, c.middleName)) {
      RowOfColumns(line, c);
    }
    if IsRowOf(line, id) {
      var c := ColumnsOfRow(line);
      RowOfColumns(line, c);
    }
  }

  /** What is looked up: in a text of these lines, exactly the first line of nine columns whose first is the
      voter's decimal id gives the voter's row, with the PIN from the second column, and the last, first and
      middle name from the third to the fifth; without such a line there is no row. */
  lemma {:induction false} VoterInText(roll: string, lines: seq<string>, id: uint32)
    requires ConsistsOf(roll, lines)
    ensures forall i: nat, c :: FirstLineOf(lines, id, i, c) ==>
              FindVoter(roll, id) == Some(Row(Dec(id), c.pin, c.lastName, c.firstName, c.middleName))
    ensures FindVoter(roll, id).Some? <==> exists i: nat, c :: FirstLineOf(lines, id, i, c)
  {
    hide ParseRow; hide Dec; hide Reads; hide Lines; hide IsRowOf;
    LinesAre(roll, lines);
    var i := FindInStopsAtFirst(lines, id);
    if i < |lines| {
      LineIsRow(lines[i], id);
      var c :| Reads(lines[i], c) && c.uid == Dec(id);
      forall j, d | 0 <= j < i && Reads(lines[j], d) ensures d.uid != Dec(id) { LineIsRow(lines[j], id); }
      assert FirstLineOf(lines, id, i, c);
    }
    forall k: nat, c | FirstLineOf(lines, id, k, c)
      ensures FindVoter(roll, id) == Some(Row(Dec(id), c.pin, c.lastName, c.firstName, c.middleName))
    {
      LineIsRow(lines[k], id);
      RowOfColumns(lines[k], c);
    }
  }

  /** `voter_info["pin"]`, which is empty for a voter without a row. */
  function PinOf(row: Option<Row>): string { if row.Some? then row.value.pin else "" }

  // --------------------------------------------------------------- the ID service's roll

  type Records = map<uint32, seq<string>>

  const INVALID_VOTER_ID: uint32 := 0xFFFF_FFFF

  function Lower(c: char): char { if 'A' <= c <= 'Z' then c + 32 as char else c }

  predicate EqualFold(a: string, b: string) {
    |a| == |b| && forall i :: 0 <= i < |a| ==> Lower(a[i]) == Lower(b[i])
  }

  /** `validate_voter_name`: first, middle and last name against columns 2, 3 and 1. */
  predicate NamesMatch(records: Records, b: VoterIdBody, voterId: uint32) {
    && voterId in records && |records[voterId]| >= 8
    && EqualFold(b.firstName, records[voterId][2])
    && EqualFold(b.middleName, records[voterId][3])
    && EqualFold(b.lastName, records[voterId][1])
  }

  /** The voter id in front of the ID data, in little-endian order; bytes that the
      data does not have are read from whatever follows it. */
  function MatchId(data: seq<byte>, beyond: seq<byte>): uint32
    requires |beyond| >= 4
  {
    var d := data + beyond;
    d[0] as int + 0x100 * d[1] as int + 0x1_0000 * d[2] as int + 0x100_0000 * d[3] as int
  }

  /** What a client puts in front of its ID data. */
  function IdPrefix(id: uint32): seq<byte> {
    [(id % 0x100) as byte, (id / 0x100 % 0x100) as byte, (id / 0x1_0000 % 0x100) as byte, (id / 0x100_0000) as byte]
  }

  lemma {:induction false} MatchIdOfPrefix(id: uint32, data: seq<byte>, beyond: seq<byte>)
    requires |beyond| >= 4
    ensures MatchId(IdPrefix(id) + data, beyond) == id
  {
    var d := IdPrefix(id) + data + beyond;
    assert d[0] == IdPrefix(id)[0] && d[1] == IdPrefix(id)[1] && d[2] == IdPrefix(id)[2] && d[3] == IdPrefix(id)[3];
    assert id / 0x100 / 0x100 == id / 0x1_0000;
    assert id / 0x1_0000 / 0x100 == id / 0x100_0000;
  }
}
