/** What each callback of the check-in service and of the ID service does, and the
    runs of both services with any number of arbitrary clients. */
module Protocol {
  import opened Text
  import opened Messages
  import opened Freshness
  import opened Rounds
  import opened Roll
  import TicketFile

  type PublicKey = nat
  type Endpoint = nat

  datatype ClientType = UntrustedClient | TrustedClient

  /** What does not change while the services run. `timeout` is in milliseconds;
      `keyFiles` and `idKeyFiles` are the keys that the two services would find in
      their key folders; `absMin` stands for the undefined `std::abs(INT64_MIN)`. */
  datatype Config = Config(trusted: set<uint32>, roll: string, records: Records, freshness: uint32, timeout: int,
                           absMin: int, idKey: PublicKey, serviceKey: PublicKey,
                           keyFiles: map<uint32, PublicKey>, idKeyFiles: map<uint32, PublicKey>)

  /** A signature that some party made: the bytes verify under `key` over `body` and over nothing else. */
  datatype Signed = Signed(key: PublicKey, body: SignedBody, bytes: seq<byte>)

  datatype Clock = Clock(wall: uint64, steady: int)

  // ------------------------------------------------------------------ clients and keys

  datatype Directory = Directory(clientIds: map<Endpoint, uint32>, clients: map<uint32, ClientType>,
                                 publicKeys: map<uint32, PublicKey>, verifiers: map<uint32, PublicKey>)

  /** What the peer presents in the TLS handshake. */
  datatype Certificate = NoCertificate | WithoutKey(clientId: uint32) | WithKey(clientId: uint32, key: PublicKey)

  function Emplace<K, V>(m: map<K, V>, k: K, v: V): map<K, V> { if k in m then m else m[k := v] }

  function TypeOf(cfg: Config, c: uint32): ClientType { if c in cfg.trusted then TrustedClient else UntrustedClient }

  /** `handle_accept`: the first key seen for a client id is kept, a different one is only reported. */
  function Admit(cfg: Config, d: Directory, ep: Endpoint, cert: Certificate): Directory {
    match cert
    case NoCertificate => d
    case WithoutKey(c) => d.(clientIds := d.clientIds[ep := c])
    case WithKey(c, k) =>
      var mismatch := c in d.publicKeys && d.publicKeys[c] != k;
      Directory(d.clientIds[ep := c], Emplace(d.clients, c, TypeOf(cfg, c)), Emplace(d.publicKeys, c, k),
                if mismatch then d.verifiers else Emplace(d.verifiers, c, k))
  }

  /** The lazy load of a missing key from the key folder. */
  function EnsureKey(cfg: Config, d: Directory, c: uint32): Directory {
    if c in d.verifiers || c !in cfg.keyFiles then d
    else d.(publicKeys := Emplace(d.publicKeys, c, cfg.keyFiles[c]), verifiers := d.verifiers[c := cfg.keyFiles[c]])
  }

  // ------------------------------------------------------------------ the check-in service

  datatype Service = Service(rounds: Rounds, tickets: TicketFile.Tickets, ticketFile: string,
                             directory: Directory, armed: set<Endpoint>)

  datatype Reply = NoReply | CheckinReplied(checkin: CheckinReplyBody) | TicketReplied(ticket: TicketReplyBody)

  /** `validate_client_request`: both signatures, the claimed voter, the timestamp. */
  predicate Validates(cfg: Config, signed: set<Signed>, key: PublicKey, r: CheckinRequest, wall: uint64) {
    var id := r.body.verified;
    && Signed(key, CheckinRequestBody(r.body), r.signature) in signed
    && Signed(cfg.idKey, StatementBody(id.presented, id.voterId), id.signature) in signed
    && r.body.voterId == id.voterId
    && Fresh(wall, r.body.timestamp, cfg.freshness, cfg.absMin)
  }

  /** A Phase 1 request from client `c` that is accepted. */
  predicate Accepts(cfg: Config, s: Service, signed: set<Signed>, clock: Clock, c: uint32, r: CheckinRequest) {
    && r.body.clientId == c
    && c in s.directory.verifiers
    && Validates(cfg, signed, s.directory.verifiers[c], r, clock.wall)
    && HasStatus(s.rounds, r.body.voterId, Eligible)
  }

  /** Phase 1 after its checks: a new round, a new ticket in memory and in the file. */
  function Issue(cfg: Config, s: Service, steady: int, v: uint32, ticket: string, secret: string): Service {
    s.(rounds := Begin(s.rounds, v, steady + cfg.timeout),
       tickets := s.tickets[ticket := TicketFile.Entry(v, secret)],
       ticketFile := s.ticketFile + TicketFile.Line(ticket, v, secret) + "\n")
  }

  /** `handle_checkin_request`, on a request read from `ep`, whose certificate named client `c`. */
  function Checkin(cfg: Config, s: Service, signed: set<Signed>, clock: Clock, ep: Endpoint, c: uint32,
                   r: CheckinRequest, ticket: string, secret: string): (Service, Reply)
  {
    var b := r.body;
    var s1 := if b.clientId == c then s.(directory := EnsureKey(cfg, s.directory, c)) else s;
    if b.clientId == c && c !in s1.directory.verifiers then (s1, NoReply) else
      var ok := Accepts(cfg, s1, signed, clock, c, r);
      var s2 := if ok then Issue(cfg, s1, clock.steady, b.voterId, ticket, secret) else s1;
      (s2.(armed := s2.armed + {ep}),
       CheckinReplied(CheckinReplyBody(ok, b.clientId, clock.wall, b.lastName, b.firstName, b.middleName, b.voterId,
                                       if ok then ticket else "")))
  }

  /** The ticket map once `read_from_csv` has merged the file into it. */
  function Refreshed(s: Service): TicketFile.Tickets { s.tickets + TicketFile.Contents(s.ticketFile) }

  /** A Phase 2 request that gets an answer at all: the sender, the ticket, the signature and the timestamp are good. */
  predicate Answers(cfg: Config, s: Service, signed: set<Signed>, clock: Clock, c: uint32, r: TicketRequest) {
    && r.body.clientId == c
    && r.body.ticket in Refreshed(s)
    && c in s.directory.verifiers
    && Signed(s.directory.verifiers[c], TicketRequestBody(r.body), r.signature) in signed
    && Fresh(clock.wall, r.body.timestamp, cfg.freshness, cfg.absMin)
  }

  predicate InWindow(cfg: Config, t: Timer, now: int) { t.expiry - cfg.timeout <= now <= t.expiry }

  /** What is left to check once a Phase 2 request is answered: the PIN and the voter's timer. */
  predicate Confirms(cfg: Config, s: Service, clock: Clock, v: uint32, pin: uint32) {
    && Dec(pin) == PinOf(FindVoter(cfg.roll, v))
    && v in s.rounds.timers
    && InWindow(cfg, s.rounds.timers[v], clock.steady)
  }

  function TicketAnswer(cfg: Config, approved: bool, v: uint32, pin: uint32, secret: string): TicketReplyBody {
    match FindVoter(cfg.roll, v)
    case Some(row) => TicketReplyBody(approved, row.lastName, row.firstName, row.middleName, v, secret, pin)
    case None => TicketReplyBody(approved, "", "", "", v, secret, pin)
  }

  /** `handle_trusted_client`, on a message from client `c`; `Err` is one that is not a ticket request. */
  function Redeem(cfg: Config, s: Service, signed: set<Signed>, clock: Clock, c: uint32,
                  m: Result<TicketRequest>): (Service, Reply)
  {
    var s0 := s.(tickets := Refreshed(s));
    if m.Err? || m.value.body.clientId != c || m.value.body.ticket !in s0.tickets then (s0, NoReply) else
      var s1 := s0.(directory := EnsureKey(cfg, s.directory, c));
      var b := m.value.body;
      if !Answers(cfg, s1, signed, clock, c, m.value) then (s1, NoReply) else
        var entry := s0.tickets[b.ticket];
        var v := entry.voterId;
        if Confirms(cfg, s1, clock, v, b.pin)
        then (s1.(rounds := Finish(s1.rounds, v)), TicketReplied(TicketAnswer(cfg, true, v, b.pin, entry.secret)))
        else (s1, TicketReplied(TicketAnswer(cfg, false, v, b.pin, "")))
  }

  /** The payload callback: who sent the message decides how it is read. */
  function Receive(cfg: Config, s: Service, signed: set<Signed>, clock: Clock, ep: Endpoint,
                   asCheckin: Result<CheckinRequest>, asTicket: Result<TicketRequest>,
                   ticket: string, secret: string): (Service, Reply)
  {
    var s1 := s.(armed := s.armed - {ep});
    var d := s.directory;
    if ep !in d.clientIds || d.clientIds[ep] !in d.clients then (s1, NoReply) else
      var c := d.clientIds[ep];
      match d.clients[c]
      case TrustedClient => Redeem(cfg, s1, signed, clock, c, asTicket)
      case UntrustedClient =>
        if asCheckin.Err? then (s1, NoReply)
        else Checkin(cfg, s1, signed, clock, ep, c, asCheckin.value, ticket, secret)
  }

  // ------------------------------------------------------------------ the ID service

  datatype IdService = IdService(publicKeys: map<uint32, PublicKey>, verifiers: map<uint32, PublicKey>)

  function IdAdmit(s: IdService, c: uint32, k: PublicKey): IdService {
    if c in s.publicKeys && s.publicKeys[c] != k then s
    else IdService(Emplace(s.publicKeys, c, k), Emplace(s.verifiers, c, k))
  }

  function IdEnsureKey(cfg: Config, s: IdService, c: uint32): IdService {
    if c in s.verifiers || c !in cfg.idKeyFiles then s
    else s.(verifiers := s.verifiers[c := cfg.idKeyFiles[c]])
  }

  /** The checks `handle_validation_request` makes before it needs the client's key. */
  predicate IdPlausible(cfg: Config, wall: uint64, r: VoterIdRequest, v: uint32) {
    && Fresh(wall, r.body.timestamp, cfg.freshness, cfg.absMin)
    && v != INVALID_VOTER_ID
    && NamesMatch(cfg.records, r.body, v)
  }

  predicate IdConfirms(cfg: Config, s: IdService, signed: set<Signed>, wall: uint64, r: VoterIdRequest, v: uint32) {
    && IdPlausible(cfg, wall, r, v)
    && r.body.clientId in s.verifiers
    && Signed(s.verifiers[r.body.clientId], IdRequestBody(r.body), r.signature) in signed
  }

  // ------------------------------------------------------------------ runs

  datatype Event =
    | IdConfirmed(presented: VoterIdRequest, voterId: uint32)
    | Accepted(voterId: uint32, request: CheckinRequest, key: PublicKey, ticket: string, secret: string, at: Clock)
    | Approved(voterId: uint32, redeemed: TicketRequest, key: PublicKey, secret: string, at: Clock)
    | Reverted(voterId: uint32)

  datatype World = World(service: Service, idService: IdService, signed: set<Signed>, clock: Clock, log: seq<Event>)

  /** One callback of a service, one signature made by a client, or the passing of
      time. `bytes` are the bytes of the signature that a service makes. */
  datatype Step =
    | ClientSigns(key: PublicKey, body: SignedBody, bytes: seq<byte>)
    | IdHandshake(clientId: uint32, key: PublicKey)
    | IdMessage(request: VoterIdRequest, beyond: seq<byte>, bytes: seq<byte>)
    | Handshake(endpoint: Endpoint, certificate: Certificate)
    | Message(endpoint: Endpoint, asCheckin: Result<CheckinRequest>, asTicket: Result<TicketRequest>,
              ticketBytes: seq<byte>, secretBytes: seq<byte>, bytes: seq<byte>)
    | TimerExpires(handler: nat)
    | HandlerRuns(handler: nat)
    | Tick(elapsed: nat, wall: uint64)

  /** Clients do not hold the services' keys; random strings have the lengths the
      code asks for; a message arrives only where a read is armed. */
  predicate Enabled(cfg: Config, w: World, st: Step) {
    match st
    case ClientSigns(k, _, _) => k != cfg.idKey && k != cfg.serviceKey
    case IdMessage(_, beyond, _) => |beyond| >= 4
    case Message(ep, _, _, t, x, _) => ep in w.service.armed && |t| == 16 && |x| == 32
    case _ => true
  }

  function ReplySignature(cfg: Config, reply: Reply, bytes: seq<byte>): set<Signed> {
    match reply
    case NoReply => {}
    case CheckinReplied(b) => {Signed(cfg.serviceKey, CheckinReply(b), bytes)}
    case TicketReplied(b) => {Signed(cfg.serviceKey, TicketReply(b), bytes)}
  }

  /** The event that a message leaves in the log, told from the reply to it. */
  function ReplyEvents(w: World, st: Step, reply: Reply): seq<Event>
    requires st.Message? && (reply.CheckinReplied? ==> st.asCheckin.Ok?) && (reply.TicketReplied? ==> st.asTicket.Ok?)
  {
    match reply
    case NoReply => []
    case CheckinReplied(b) =>
      if b.approved && b.clientId in w.service.directory.verifiers
      then [Accepted(b.voterId, st.asCheckin.value, w.service.directory.verifiers[b.clientId], b.ticket,
                     Hex(st.secretBytes), w.clock)]
      else []
    case TicketReplied(b) =>
      var c := st.asTicket.value.body.clientId;
      if b.approved && c in w.service.directory.verifiers
      then [Approved(b.voterId, st.asTicket.value, w.service.directory.verifiers[c], b.secret, w.clock)]
      else []
  }

  function ReceiveStep(cfg: Config, w: World, st: Step): World
    requires st.Message?
  {
    var (s, reply) := Receive(cfg, w.service, w.signed, w.clock, st.endpoint, st.asCheckin, st.asTicket,
                              Hex(st.ticketBytes), Hex(st.secretBytes));
    w.(service := s, signed := w.signed + ReplySignature(cfg, reply, st.bytes),
       log := w.log + ReplyEvents(w.(service := s), st, reply))
  }

  function IdStep(cfg: Config, w: World, st: Step): World
    requires st.IdMessage? && |st.beyond| >= 4
  {
    var r, v := st.request, MatchId(st.request.body.idData, st.beyond);
    if !IdPlausible(cfg, w.clock.wall, r, v) then w else
      var ids := IdEnsureKey(cfg, w.idService, r.body.clientId);
      if !IdConfirms(cfg, ids, w.signed, w.clock.wall, r, v) then w.(idService := ids)
      else w.(idService := ids, signed := w.signed + {Signed(cfg.idKey, StatementBody(r, v), st.bytes)},
              log := w.log + [IdConfirmed(r, v)])
  }

  /** One step; a step that is not enabled does not happen. */
  function Next(cfg: Config, w: World, st: Step): World {
    if !Enabled(cfg, w, st) then w else
      match st
      case ClientSigns(k, b, bs) => w.(signed := w.signed + {Signed(k, b, bs)})
      case IdHandshake(c, k) => w.(idService := IdAdmit(w.idService, c, k))
      case IdMessage(_, _, _) => IdStep(cfg, w, st)
      case Handshake(ep, cert) =>
        w.(service := w.service.(directory := Admit(cfg, w.service.directory, ep, cert),
                                 armed := w.service.armed + {ep}))
      case Message(_, _, _, _, _, _) => ReceiveStep(cfg, w, st)
      case TimerExpires(h) =>
        w.(service := w.service.(rounds := Expire(w.service.rounds, h, w.clock.steady)))
      case HandlerRuns(h) =>
        w.(service := w.service.(rounds := RunHandler(w.service.rounds, h)),
           log := w.log + if Ends(w.service.rounds, h) then [Reverted(w.service.rounds.handlers[h].voterId)] else [])
      case Tick(elapsed, wall) => w.(clock := Clock(wall, w.clock.steady + elapsed))
  }

  function Exec(cfg: Config, w: World, steps: seq<Step>): World {
    if steps == [] then w else Next(cfg, Exec(cfg, w, steps[..|steps| - 1]), steps[|steps| - 1])
  }

  /** A start of both services: every voter eligible, no rounds, no tickets read yet, the
      keys of the key folder loaded, and no signature by a service. */
  ghost predicate Initial(cfg: Config, w: World) {
    && cfg.idKey != cfg.serviceKey
    && (forall v: uint32 :: v in w.service.rounds.status ==> w.service.rounds.status[v] == Eligible)
    && w.service.rounds.timers == map[] && w.service.rounds.handlers == map[]
    && w.service.tickets == map[] && Terminated(w.service.ticketFile)
    && w.service.directory.clientIds == map[] && w.service.directory.clients == map[]
    && w.service.directory.publicKeys == w.service.directory.verifiers
    && w.service.armed == {}
    && (forall x :: x in w.signed ==> x.key != cfg.idKey && x.key != cfg.serviceKey)
    && w.log == []
  }
}
