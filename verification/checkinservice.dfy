/** The check-in service as an object whose callbacks update its maps in place. Every callback
    is proved to do what the protocol's step functions say, so that what holds of all runs of
    the protocol holds of this object. */
module CheckinService {
  import opened Text
  import opened Messages
  import opened Freshness
  import opened Rounds
  import opened Roll
  import opened Protocol
  import TicketFile

  lemma {:induction false} HexAppend(bs: seq<byte>, b: byte)
    ensures Hex(bs + [b]) == Hex(bs) + [HexDigit(b as int / 16), HexDigit(b as int % 16)]
  {
    var all := bs + [b];
    if bs == [] {
      assert all == [b] && all[1..] == [];
    } else {
      assert all[1..] == bs[1..] + [b] && all[0] == bs[0];
      HexAppend(bs[1..], b);
    }
  }

  /** `generate_secret`, on the bytes that the random generator filled in. */
  method GenerateSecret(buffer: seq<byte>) returns (s: string)
    ensures s == Hex(buffer)
  {
    s := "";
    for i := 0 to |buffer|
      invariant s == Hex(buffer[..i])
    {
      HexAppend(buffer[..i], buffer[i]);
      assert buffer[..i + 1] == buffer[..i] + [buffer[i]];
      s := s + [HexDigit(buffer[i] as int / 16), HexDigit(buffer[i] as int % 16)];
    }
    assert buffer[..|buffer|] == buffer;
  }

  /** `find_voter`: the first complete row of the voter, or nothing when no row is. */
  method FindVoterRow(roll: string, id: uint32) returns (r: Option<Row>)
    ensures r == FindVoter(roll, id)
  {
    hide ParseRow; hide Lines; hide Dec;
    var lines := Lines(roll);
    var i := 0;
    while i < |lines|
      invariant i <= |lines|
      invariant FindIn(lines[i..], id) == FindVoter(roll, id)
    {
      assert lines[i..][1..] == lines[i + 1..];
      var row := ParseRow(lines[i]);
      if row.Some? && row.value.uid == Dec(id) { return row; }
      i := i + 1;
    }
    return None;
  }

  // ----------------------------------------------------------------------------- the voter list

  function FirstColumn(line: string): string { line[..Find(line, ',')] }

  predicate IsUid(line: string, v: uint32) {
    var n := ParseUlong(FirstColumn(line));
    n.Number? && Narrow32(n.n) == v
  }

  /** What stands in front of the first comma, or the whole line. */
  lemma {:induction false} FirstColumnIs(column: string, rest: string)
    requires ',' !in column && (rest == "" || rest[0] == ',')
    ensures FirstColumn(column + rest) == column
    ensures forall v: uint32 :: column == Dec(v) ==> forall u: uint32 :: IsUid(column + rest, u) <==> u == v
  {
    hide ParseUlong;
    if rest != "" {
      assert column + rest == column + [','] + rest[1..];
      FindAt(column, ',', rest[1..]);
    } else {
      assert column + rest == column;
    }
    forall v: uint32 | column == Dec(v) ensures ParseUlong(column) == Number(v) { ParseUlongOfWhole(v); }
  }

  predicate GoodHeader(lines: seq<string>) { lines != [] && FirstColumn(lines[0]) == "UID" }

  predicate GoodRows(lines: seq<string>) {
    forall i :: 1 <= i < |lines| ==> ParseUlong(FirstColumn(lines[i])).Number?
  }

  /** `load_voter_list`: exactly the voters of the list are in the table and all are eligible; it
      throws exactly when the header is wrong or a first column is not a number. */
  method LoadVoterList(file: string) returns (r: Result<map<uint32, VoterStatus>>)
    ensures r.Ok? <==> GoodHeader(Lines(file)) && GoodRows(Lines(file))
    ensures r.Ok? ==>
              forall v: uint32 :: v in r.value <==> exists i :: 1 <= i < |Lines(file)| && IsUid(Lines(file)[i], v)
    ensures r.Ok? ==> forall v: uint32 :: v in r.value ==> r.value[v] == Eligible
  {
    hide ParseUlong; hide Lines; hide FirstColumn; hide Narrow32;
    var lines := Lines(file);
    if lines == [] || FirstColumn(lines[0]) != "UID" { return Err; }
    var table: map<uint32, VoterStatus> := map[];
    for k := 1 to |lines|
      invariant forall i :: 1 <= i < k ==> ParseUlong(FirstColumn(lines[i])).Number?
      invariant forall v: uint32 :: v in table <==> exists i :: 1 <= i < k && IsUid(lines[i], v)
      invariant forall v: uint32 :: v in table ==> table[v] == Eligible
    {
      var n := ParseUlong(FirstColumn(lines[k]));
      if !n.Number? { return Err; }
      assert IsUid(lines[k], Narrow32(n.n));
      table := Emplace(table, Narrow32(n.n), Eligible);
    }
    return Ok(table);
  }

  // -------------------------------------------------------------------------------- the wire

  /** How a payload reads as either kind of request; `None` is one that is not JSON. */
  function ReadCheckin(payload: Option<Json>): Result<CheckinRequest> {
    if payload.Some? then CheckinRequestFromJson(payload.value) else Err
  }

  function ReadTicket(payload: Option<Json>): Result<TicketRequest> {
    if payload.Some? then TicketRequestFromJson(payload.value) else Err
  }

  /** Every request that a client sends is read back as it was, so the body whose signature the
      service checks is the body that the client signed. */
  lemma {:induction false} RequestsReadBack(r: CheckinRequest, t: TicketRequest)
    ensures ReadCheckin(Some(CheckinRequestJson(r))) == Ok(r)
    ensures ReadTicket(Some(TicketRequestJson(t))) == Ok(t)
  {
    CheckinRequestRoundTrip(r);
    TicketRequestRoundTrip(t);
  }

  // ----------------------------------------------------------------------------- the object

  class CheckinService {
    const cfg: Config

    var voterStatusTable: map<uint32, VoterStatus>
    var requestTimers: map<uint32, Timer>
    var handlers: map<nat, Handler>
    var nextTimer: nat

    var clientTickets: TicketFile.Tickets
    var ticketFile: string

    var clientIds: map<Endpoint, uint32>
    var clients: map<uint32, ClientType>
    var publicKeys: map<uint32, PublicKey>
    var verifiers: map<uint32, PublicKey>
    var armed: set<Endpoint>

    ghost function RoundState(): Rounds reads this {
      Rounds(voterStatusTable, requestTimers, handlers, nextTimer)
    }

    ghost function DirectoryState(): Directory reads this { Directory(clientIds, clients, publicKeys, verifiers) }

    ghost function State(): Service reads this {
      Service(RoundState(), clientTickets, ticketFile, DirectoryState(), armed)
    }

    /** A service that has loaded its voter list and the keys of its key folder. */
    constructor (cfg: Config, voters: map<uint32, VoterStatus>, tickets: string, keys: map<uint32, PublicKey>)
      ensures this.cfg == cfg
      ensures State() == Service(Rounds(voters, map[], map[], 0), map[], tickets,
                                 Directory(map[], map[], keys, keys), {})
    {
      this.cfg := cfg;
      voterStatusTable, requestTimers, handlers, nextTimer := voters, map[], map[], 0;
      clientTickets, ticketFile := map[], tickets;
      clientIds, clients, publicKeys, verifiers, armed := map[], map[], keys, keys, {};
    }

    // -------------------------------------------------------------------- timers

    /** The timer object goes, or is cancelled: a handler that still waits is aborted. */
    method AbortWait(id: nat)
      modifies this`handlers
      ensures handlers == Abort(old(handlers), id)
    {
      if id in handlers && handlers[id].state.Waiting? {
        handlers := handlers[id := handlers[id].(state := Aborted)];
      }
    }

    /** `start_timer`, for a voter who has just become pending. */
    method StartTimer(v: uint32, steady: int)
      requires HasStatus(RoundState(), v, Pending)
      modifies this`requestTimers, this`handlers, this`nextTimer
      ensures RoundState() == Begin(old(RoundState()), v, steady + cfg.timeout)
    {
      if v in requestTimers { AbortWait(requestTimers[v].id); }
      requestTimers := requestTimers[v := Timer(nextTimer, steady + cfg.timeout)];
      handlers := handlers[nextTimer := Handler(v, steady + cfg.timeout, Waiting)];
      nextTimer := nextTimer + 1;
      assert voterStatusTable[v := Pending] == voterStatusTable;
    }

    /** `handle_verification_timeout`. */
    method HandleVerificationTimeout(v: uint32)
      modifies this`voterStatusTable, this`requestTimers, this`handlers
      ensures RoundState() == Timeout(old(RoundState()), v)
    {
      if v in requestTimers { AbortWait(requestTimers[v].id); }
      requestTimers := requestTimers - {v};
      if v in voterStatusTable && voterStatusTable[v] == Pending {
        voterStatusTable := voterStatusTable[v := Eligible];
      }
    }

    /** The event loop finds that a timer has expired. */
    method OnTimerExpired(h: nat, steady: int)
      modifies this`handlers
      ensures RoundState() == Expire(old(RoundState()), h, steady)
    {
      if h in handlers && handlers[h].state.Waiting? && handlers[h].expiry <= steady {
        handlers := handlers[h := handlers[h].(state := Fired)];
      }
    }

    /** The event loop runs a queued handler; an aborted one does nothing. */
    method OnHandler(h: nat)
      modifies this`voterStatusTable, this`requestTimers, this`handlers
      ensures RoundState() == RunHandler(old(RoundState()), h)
    {
      if h !in handlers || handlers[h].state.Waiting? { return; }
      var x := handlers[h];
      handlers := handlers - {h};
      if x.state.Fired? { HandleVerificationTimeout(x.voterId); }
    }

    // -------------------------------------------------------------------- tickets

    /** `read_from_csv`: line by line, the file is merged into the map. */
    method ReadFromCsv()
      modifies this`clientTickets
      ensures clientTickets == Refreshed(old(State()))
    {
      hide Lines; hide TicketFile.ParseLine;
      var lines := Lines(ticketFile);
      for i := 0 to |lines|
        invariant clientTickets == TicketFile.ApplyAll(old(clientTickets), lines[..i])
      {
        assert lines[..i + 1][..i] == lines[..i];
        var p := TicketFile.ParseLine(lines[i]);
        if p.Good? { clientTickets := clientTickets[p.ticket := p.entry]; }
      }
      assert lines[..|lines|] == lines;
      TicketFile.ApplyAllMerges(old(clientTickets), lines);
    }

    /** `write_to_csv`. */
    method WriteToCsv(ticket: string, secret: string, v: uint32)
      modifies this`ticketFile
      ensures ticketFile == old(ticketFile) + TicketFile.Line(ticket, v, secret) + "\n"
    {
      ticketFile := ticketFile + ticket + "," + Dec(v) + "," + secret + "\n";
      assert ticketFile == old(ticketFile) + TicketFile.Line(ticket, v, secret) + "\n";
    }

    // -------------------------------------------------------------------- clients

    /** `handle_accept`, once the handshake has succeeded. */
    method HandleAccept(ep: Endpoint, cert: Certificate)
      modifies this`clientIds, this`clients, this`publicKeys, this`verifiers, this`armed
      ensures DirectoryState() == Admit(cfg, old(DirectoryState()), ep, cert)
      ensures armed == old(armed) + {ep}
    {
      if !cert.NoCertificate? {
        var c := cert.clientId;
        clientIds := clientIds[ep := c];
        if cert.WithKey? {
          if c !in publicKeys {
            publicKeys := publicKeys[c := cert.key];
            if c !in verifiers { verifiers := verifiers[c := cert.key]; }
          } else if publicKeys[c] == cert.key {
            if c !in verifiers { verifiers := verifiers[c := cert.key]; }
          }
          if c !in clients {
            clients := clients[c := if c in cfg.trusted then TrustedClient else UntrustedClient];
          }
        }
      }
      armed := armed + {ep};
    }

    /** What both handlers do first: a missing verifier is loaded from the key folder. */
    method EnsureVerifier(c: uint32) returns (found: bool)
      modifies this`publicKeys, this`verifiers
      ensures DirectoryState() == EnsureKey(cfg, old(DirectoryState()), c)
      ensures found <==> c in verifiers
    {
      if c in verifiers { return true; }
      if c !in cfg.keyFiles { return false; }
      publicKeys := Emplace(publicKeys, c, cfg.keyFiles[c]);
      verifiers := verifiers[c := cfg.keyFiles[c]];
      return true;
    }

    // -------------------------------------------------------------------- Phase 1

    /** `validate_client_request`, whose `at()` finds a verifier. */
    method ValidateClientRequest(signed: set<Signed>, r: CheckinRequest, wall: uint64) returns (ok: bool)
      requires r.body.clientId in verifiers
      ensures ok <==> Validates(cfg, signed, verifiers[r.body.clientId], r, wall)
    {
      if Signed(verifiers[r.body.clientId], CheckinRequestBody(r.body), r.signature) !in signed { return false; }
      var id := r.body.verified;
      if Signed(cfg.idKey, StatementBody(id.presented, id.voterId), id.signature) !in signed { return false; }
      if r.body.voterId != id.voterId { return false; }
      var difference := Distance(wall, r.body.timestamp);
      return Abs64(ToInt64(difference), cfg.absMin) <= cfg.freshness;
    }

    /** The part of `handle_checkin_request` that decides, and opens the round. */
    method TryBegin(signed: set<Signed>, clock: Clock, r: CheckinRequest) returns (accept: bool)
      requires r.body.clientId in verifiers
      modifies this`voterStatusTable, this`requestTimers, this`handlers, this`nextTimer
      ensures accept <==> Accepts(cfg, old(State()), signed, clock, r.body.clientId, r)
      ensures RoundState() == if accept then Begin(old(RoundState()), r.body.voterId, clock.steady + cfg.timeout)
                              else old(RoundState())
    {
      var v := r.body.voterId;
      accept := ValidateClientRequest(signed, r, clock.wall);
      if !accept { return; }
      if v in voterStatusTable && voterStatusTable[v] == Eligible {
        voterStatusTable := voterStatusTable[v := Pending];
        StartTimer(v, clock.steady);
        assert old(voterStatusTable)[v := Pending][v := Pending] == old(voterStatusTable)[v := Pending];
      } else {
        accept := false;
      }
    }

    /** A new ticket and its secret, in memory and in the file. */
    method IssueTicket(v: uint32, t: seq<byte>, x: seq<byte>) returns (ticket: string)
      modifies this`clientTickets, this`ticketFile
      ensures ticket == Hex(t)
      ensures clientTickets == old(clientTickets)[ticket := TicketFile.Entry(v, Hex(x))]
      ensures ticketFile == old(ticketFile) + TicketFile.Line(ticket, v, Hex(x)) + "\n"
    {
      ticket := GenerateSecret(t);
      var secret := GenerateSecret(x);
      clientTickets := clientTickets[ticket := TicketFile.Entry(v, secret)];
      WriteToCsv(ticket, secret, v);
    }

    /** `handle_checkin_request`; `t` and `x` are the random bytes it may draw. */
    method HandleCheckinRequest(signed: set<Signed>, clock: Clock, ep: Endpoint, r: CheckinRequest,
                                t: seq<byte>, x: seq<byte>) returns (reply: Reply)
      requires ep in clientIds
      modifies this`voterStatusTable, this`requestTimers, this`handlers, this`nextTimer, this`clientTickets,
               this`ticketFile, this`publicKeys, this`verifiers, this`armed
      ensures (State(), reply) == Checkin(cfg, old(State()), signed, clock, ep, old(clientIds[ep]), r, Hex(t), Hex(x))
    {
      hide Validates; hide Begin; hide EnsureKey; hide TicketFile.Line; hide Hex; hide HasStatus;
      var b := r.body;
      var accept, ticket := false, "";
      if b.clientId == clientIds[ep] {
        var found := EnsureVerifier(b.clientId);
        if !found { return NoReply; }
        accept := TryBegin(signed, clock, r);
      }
      if accept { ticket := IssueTicket(b.voterId, t, x); }
      armed := armed + {ep};
      return CheckinReplied(CheckinReplyBody(accept, b.clientId, clock.wall, b.lastName, b.firstName, b.middleName,
                                             b.voterId, ticket));
    }

    // -------------------------------------------------------------------- Phase 2

    /** The timer test of `handle_trusted_client`: within the window the entry is taken out. */
    method TakeTimer(v: uint32, steady: int) returns (timer: Option<Timer>)
      modifies this`requestTimers
      ensures timer.Some? <==> v in old(requestTimers) && InWindow(cfg, old(requestTimers)[v], steady)
      ensures timer.Some? ==> timer.value == old(requestTimers)[v]
      ensures requestTimers == if timer.Some? then old(requestTimers) - {v} else old(requestTimers)
    {
      if v !in requestTimers { return None; }
      var it := requestTimers[v];
      var start := it.expiry - cfg.timeout;
      if start <= steady && steady <= it.expiry {
        requestTimers := requestTimers - {v};
        return Some(it);
      }
      return None;
    }

    /** `handle_trusted_client` after its checks: the PIN, the timer, the voter's status. */
    method Confirm(clock: Clock, v: uint32, pin: uint32, secret: string) returns (answer: TicketReplyBody)
      modifies this`voterStatusTable, this`requestTimers, this`handlers
      ensures RoundState() == if Confirms(cfg, old(State()), clock, v, pin) then Finish(old(RoundState()), v)
                              else old(RoundState())
      ensures answer == TicketAnswer(cfg, Confirms(cfg, old(State()), clock, v, pin), v, pin,
                                     if Confirms(cfg, old(State()), clock, v, pin) then secret else "")
    {
      hide FindVoter; hide Dec;
      var row := FindVoterRow(cfg.roll, v);
      var names := if row.Some? then row.value else Row("", "", "", "", "");
      if Dec(pin) != names.pin {
        return TicketReplyBody(false, names.lastName, names.firstName, names.middleName, v, "", pin);
      }
      var timer := TakeTimer(v, clock.steady);
      if timer.None? {
        return TicketReplyBody(false, names.lastName, names.firstName, names.middleName, v, "", pin);
      }
      if v in voterStatusTable && voterStatusTable[v] == Pending {
        voterStatusTable := voterStatusTable[v := CheckedIn];
      }
      AbortWait(timer.value.id);
      return TicketReplyBody(true, names.lastName, names.firstName, names.middleName, v, secret, pin);
    }

    /** `handle_trusted_client`, on a message already read as a ticket request. */
    method HandleTrustedClient(signed: set<Signed>, clock: Clock, ep: Endpoint, m: Result<TicketRequest>)
      returns (reply: Reply)
      requires ep in clientIds
      modifies this`voterStatusTable, this`requestTimers, this`handlers, this`clientTickets, this`publicKeys,
               this`verifiers
      ensures (State(), reply) == Redeem(cfg, old(State()), signed, clock, clientIds[ep], m)
    {
      hide Confirms; hide Finish; hide EnsureKey; hide TicketAnswer; hide TicketFile.Contents; hide ToInt64;
      hide Distance;
      ReadFromCsv();
      if m.Err? { return NoReply; }
      var b, c := m.value.body, clientIds[ep];
      if b.clientId != c || b.ticket !in clientTickets { return NoReply; }
      var entry := clientTickets[b.ticket];
      var found := EnsureVerifier(c);
      if !found { return NoReply; }
      assert Refreshed(State()) == clientTickets by { RefreshTwice(old(State())); }
      if Signed(verifiers[c], TicketRequestBody(b), m.value.signature) !in signed { return NoReply; }
      if Abs64(ToInt64(Distance(clock.wall, b.timestamp)), cfg.absMin) > cfg.freshness { return NoReply; }
      var answer := Confirm(clock, entry.voterId, b.pin, entry.secret);
      return TicketReplied(answer);
    }

    // -------------------------------------------------------------------- dispatch

    /** The payload callback of `start_payload_read`. */
    method OnPayload(signed: set<Signed>, clock: Clock, ep: Endpoint, payload: Option<Json>,
                     t: seq<byte>, x: seq<byte>) returns (reply: Reply)
      modifies this
      ensures (State(), reply) == Receive(cfg, old(State()), signed, clock, ep, ReadCheckin(payload),
                                          ReadTicket(payload), Hex(t), Hex(x))
    {
      armed := armed - {ep};
      if ep !in clientIds || clientIds[ep] !in clients { return NoReply; }
      match clients[clientIds[ep]]
      case TrustedClient =>
        reply := HandleTrustedClient(signed, clock, ep, ReadTicket(payload));
      case UntrustedClient =>
        var r := ReadCheckin(payload);
        if r.Err? { return NoReply; }
        reply := HandleCheckinRequest(signed, clock, ep, r.value, t, x);
    }

    /** One callback of the event loop takes the service where the protocol's step takes it. */
    method Dispatch(w: World, st: Step, payload: Option<Json>) returns (reply: Reply)
      requires st.Handshake? || st.Message? || st.TimerExpires? || st.HandlerRuns?
      requires Enabled(cfg, w, st) && w.service == State()
      requires st.Message? ==> st.asCheckin == ReadCheckin(payload) && st.asTicket == ReadTicket(payload)
      modifies this
      ensures State() == Next(cfg, w, st).service
      ensures Next(cfg, w, st).signed == w.signed + ReplySignature(cfg, reply, if st.Message? then st.bytes else [])
    {
      hide Receive; hide Admit; hide RunHandler; hide Expire; hide ReadCheckin; hide ReadTicket; hide Hex;
      reply := NoReply;
      match st
      case Handshake(ep, cert) => HandleAccept(ep, cert);
      case Message(ep, _, _, t, x, _) => reply := OnPayload(w.signed, w.clock, ep, payload, t, x);
      case TimerExpires(h) => OnTimerExpired(h, w.clock.steady);
      case HandlerRuns(h) => OnHandler(h);
    }
  }

  /** Reading the ticket file again changes nothing. */
  lemma RefreshTwice(s: Service)
    ensures Refreshed(s.(tickets := Refreshed(s))) == Refreshed(s)
  {}
}
