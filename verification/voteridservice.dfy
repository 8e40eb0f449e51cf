/** The ID service as an object: the roll it loads, the keys it keeps, and the requests it signs. */
module VoterIdService {
  import opened Text
  import opened Messages
  import opened Freshness
  import opened Roll
  import opened Protocol

  // -------------------------------------------------------------------------------- the roll

  /** The comma-separated fields of a line; an empty field at the very end is not one. */
  function Fields(line: string): seq<string>
    decreases |line|
  {
    var f := GetField(line, ',');
    if f.Failed? then [] else [f.field] + Fields(f.rest)
  }

  method SplitFields(line: string) returns (fields: seq<string>)
    ensures fields == Fields(line)
  {
    hide Find;
    fields := [];
    var rest := line;
    var f := GetField(rest, ',');
    while f.Extracted?
      invariant f == GetField(rest, ',')
      invariant fields + Fields(rest) == Fields(line)
      decreases |rest|
    {
      assert fields + Fields(rest) == (fields + [f.field]) + Fields(f.rest);
      fields := fields + [f.field];
      rest := f.rest;
      f := GetField(rest, ',');
    }
    assert Fields(rest) == [];
  }

  /** Each field followed by a comma. */
  function Separated(fields: seq<string>): string {
    if fields == [] then "" else fields[0] + "," + Separated(fields[1..])
  }

  /** The line consists of these fields, with a comma behind each; behind a last one that is not empty, the
      comma may be missing. */
  predicate MadeOf(line: string, fields: seq<string>) {
    && (forall i :: 0 <= i < |fields| ==> ',' !in fields[i])
    && (|| line == Separated(fields)
        || (fields != [] && fields[|fields| - 1] != "" &&
            line == Separated(fields[..|fields| - 1]) + fields[|fields| - 1]))
  }

  lemma FieldsStep(head: string, tail: string)
    requires ',' !in head
    ensures Fields(head + [','] + tail) == [head] + Fields(tail)
  {
    GetFieldAt(head, ',', tail);
  }

  lemma OneField(s: string)
    requires s != "" && ',' !in s
    ensures Fields(s) == [s]
  {
    assert GetField(s, ',') == Extracted(s, "");
    assert Fields("") == [];
  }

  /** The fields that are split off are the ones that the line is made of. */
  lemma {:induction false} FieldsAre(line: string, fields: seq<string>)
    requires MadeOf(line, fields)
    ensures Fields(line) == fields
    decreases |fields|
  {
    hide Fields;
    if fields == [] {
      assert line == "";
      NoFields();
    } else {
      var tail := fields[1..];
      if |fields| == 1 && line != Separated(fields) {
        assert fields[..0] == [] && line == fields[0];
        OneField(line);
      } else {
        var rest := if line == Separated(fields) then Separated(tail)
                    else Separated(tail[..|tail| - 1]) + tail[|tail| - 1];
        if line != Separated(fields) { assert fields[..|fields| - 1] == [fields[0]] + tail[..|tail| - 1]; }
        assert line == fields[0] + [','] + rest;
        FieldsStep(fields[0], rest);
        FieldsAre(rest, tail);
      }
    }
  }

  lemma NoFields()
    ensures Fields("") == []
  {}

  /** Which line is a record, and whose: one of eight fields or more, of which the first is read as a number,
      cut to 32 bits. */
  lemma {:induction false} RecordOf(line: string, fields: seq<string>, v: uint32)
    requires MadeOf(line, fields)
    ensures UidOf(line) == Some(v) <==>
              |fields| >= 8 && ParseUlong(fields[0]).Number? && v == ParseUlong(fields[0]).n % 4294967296
    ensures |fields| >= 8 && fields[0] == Dec(v) ==> UidOf(line) == Some(v)
  {
    hide ParseUlong; hide Fields; hide Dec;
    FieldsAre(line, fields);
    ParseUlongOfWhole(v);
  }

  /** The voter that a line of the roll is a record of. */
  function UidOf(line: string): Option<uint32> {
    var fields := Fields(line);
    if |fields| < 8 then None else
      match ParseUlong(fields[0]) case Number(n) => Some(Narrow32(n)) case _ => None
  }

  /** Line `i` is the last record of voter `v` among the first `n` lines; line 0 is the header. */
  predicate LastRecord(lines: seq<string>, n: nat, v: uint32, i: int) {
    && 1 <= i < n <= |lines| && UidOf(lines[i]) == Some(v)
    && forall j :: i < j < n ==> UidOf(lines[j]) != Some(v)
  }

  /** What `voter_data` holds after `n` lines: exactly the voters with a record, each with the
      fields of the last one. */
  ghost predicate Holds(lines: seq<string>, n: nat, records: Records) {
    && n <= |lines|
    && (forall v: uint32, i :: 1 <= i < n && UidOf(lines[i]) == Some(v) ==> v in records)
    && (forall v: uint32 :: v in records ==> exists i :: LastRecord(lines, n, v, i) && records[v] == Fields(lines[i]))
  }

  lemma HoldsStep(lines: seq<string>, n: nat, records: Records)
    requires n < |lines| && Holds(lines, n, records) && n >= 1
    ensures var line := lines[n];
            Holds(lines, n + 1, if UidOf(line).Some? then records[UidOf(line).value := Fields(line)] else records)
  {
    hide UidOf; hide Fields;
    var uid := UidOf(lines[n]);
    var records' := if uid.Some? then records[uid.value := Fields(lines[n])] else records;
    forall v: uint32 | v in records'
      ensures exists i :: LastRecord(lines, n + 1, v, i) && records'[v] == Fields(lines[i])
    {
      if uid == Some(v) {
        assert LastRecord(lines, n + 1, v, n);
      } else {
        var i :| LastRecord(lines, n, v, i) && records[v] == Fields(lines[i]);
        assert LastRecord(lines, n + 1, v, i);
      }
    }
  }

  /** `load_voter_data_from_csv`. */
  method LoadVoterData(file: string) returns (records: Records)
    ensures Lines(file) == [] ==> records == map[]
    ensures Lines(file) != [] ==> Holds(Lines(file), |Lines(file)|, records)
    ensures forall v: uint32 :: v in records ==> |records[v]| >= 8
  {
    hide Lines; hide Fields; hide ParseUlong; hide Narrow32;
    var lines := Lines(file);
    records := map[];
    if lines == [] { return; }
    for n := 1 to |lines|
      invariant Holds(lines, n, records)
      invariant forall v: uint32 :: v in records ==> |records[v]| >= 8
    {
      HoldsStep(lines, n, records);
      var fields := SplitFields(lines[n]);
      if |fields| >= 8 {
        var uid := ParseUlong(fields[0]);
        if uid.Number? { records := records[Narrow32(uid.n) := fields]; }
      }
    }
  }

  // ------------------------------------------------------------------------------ the object

  class VoterIdService {
    const cfg: Config

    var publicKeys: map<uint32, PublicKey>
    var verifiers: map<uint32, PublicKey>

    ghost function State(): IdService reads this { IdService(publicKeys, verifiers) }

    constructor (cfg: Config, keys: map<uint32, PublicKey>)
      ensures this.cfg == cfg && State() == IdService(keys, keys)
    {
      this.cfg, publicKeys, verifiers := cfg, keys, keys;
    }

    /** `handle_accept`, on a peer that presented a key. */
    method HandleAccept(c: uint32, k: PublicKey)
      modifies this`publicKeys, this`verifiers
      ensures State() == IdAdmit(old(State()), c, k)
    {
      if c !in publicKeys {
        publicKeys := publicKeys[c := k];
        if c !in verifiers { verifiers := verifiers[c := k]; }
      } else if publicKeys[c] == k {
        if c !in verifiers { verifiers := verifiers[c := k]; }
      }
    }

    /** `validate_voter_name`. */
    method ValidateVoterName(b: VoterIdBody, v: uint32) returns (ok: bool)
      ensures ok <==> NamesMatch(cfg.records, b, v)
    {
      if v !in cfg.records || |cfg.records[v]| < 8 { return false; }
      var data := cfg.records[v];
      return EqualFold(b.firstName, data[2]) && EqualFold(b.middleName, data[3]) && EqualFold(b.lastName, data[1]);
    }

    /** `handle_validation_request`: the voter for whom a statement is signed, if one is. */
    method HandleValidationRequest(w: World, r: VoterIdRequest, beyond: seq<byte>, bytes: seq<byte>)
      returns (confirmed: Option<uint32>)
      requires |beyond| >= 4 && w.idService == State()
      modifies this`verifiers
      ensures IdStep(cfg, w, IdMessage(r, beyond, bytes))
           == w.(idService := State(),
                 signed := w.signed +
                   if confirmed.Some? then {Signed(cfg.idKey, StatementBody(r, confirmed.value), bytes)} else {},
                 log := w.log + if confirmed.Some? then [IdConfirmed(r, confirmed.value)] else [])
    {
      hide NamesMatch; hide MatchId;
      var b := r.body;
      if Abs64(ToInt64(Distance(w.clock.wall, b.timestamp)), cfg.absMin) > cfg.freshness { return None; }
      var v := MatchId(b.idData, beyond);
      if v == INVALID_VOTER_ID { return None; }
      var ok := ValidateVoterName(b, v);
      if !ok { return None; }
      if b.clientId !in verifiers {
        if b.clientId !in cfg.idKeyFiles { return None; }
        verifiers := verifiers[b.clientId := cfg.idKeyFiles[b.clientId]];
      }
      if Signed(verifiers[b.clientId], IdRequestBody(b), r.signature) !in w.signed { return None; }
      return Some(v);
    }
  }
}
