/** What every message is answered with, told from the world that it finds: which signature it leads to,
    over which fields, and what else it changes. */
module Answers {
  import opened Text
  import opened Messages
  import opened Freshness
  import opened Rounds
  import opened Roll
  import opened Protocol
  import opened Effects
  import opened Invariants
  import opened Provenance
  import opened Theorems
  import TicketFile

  /** A message from client `c`, which has the given type, is handed to its callback. */
  predicate Delivered(cfg: Config, w: World, st: Step, c: uint32, kind: ClientType) {
    st.Message? && Enabled(cfg, w, st) && SentBy(w, st.endpoint, c, kind)
  }

  /** The signature fits the body under the key that is pinned for the client. */
  predicate SignedBy(w: World, c: uint32, body: SignedBody, bytes: seq<byte>) {
    var keys := w.service.directory.verifiers;
    c in keys && Signed(keys[c], body, bytes) in w.signed
  }

  /** Clients and keys, the ID service and the clocks are as they were. */
  predicate RestKept(w: World, w': World) {
    && w'.service.directory == w.service.directory
    && w'.idService == w.idService && w'.clock == w.clock
  }

  /** Nothing is signed or changed; the connection is not read from again. */
  predicate Ignored(w: World, w': World, ep: Endpoint) {
    && w'.signed == w.signed && w'.log == w.log && RestKept(w, w')
    && w'.service.rounds == w.service.rounds && w'.service.ticketFile == w.service.ticketFile
    && w'.service.armed == w.service.armed - {ep}
  }

  // ------------------------------------------------------------------------------- phase 2

  /** Sender, ticket, signature and timestamp of the request are good. */
  predicate TicketGood(cfg: Config, w: World, c: uint32, r: TicketRequest) {
    && r.body.clientId == c && r.body.ticket in TicketFile.Contents(w.service.ticketFile)
    && SignedBy(w, c, TicketRequestBody(r.body), r.signature)
    && Fresh(w.clock.wall, r.body.timestamp, cfg.freshness, cfg.absMin)
  }

  predicate PinIs(cfg: Config, v: uint32, pin: uint32) {
    FindVoter(cfg.roll, v).Some? && FindVoter(cfg.roll, v).value.pin == Dec(pin)
  }

  predicate WindowOpen(cfg: Config, w: World, v: uint32) {
    var timers := w.service.rounds.timers;
    v in timers && timers[v].expiry - cfg.timeout <= w.clock.steady <= timers[v].expiry
  }

  /** The reply is about voter `v`, under the names of the voter's row, if there is one. */
  predicate About(cfg: Config, b: TicketReplyBody, v: uint32) {
    b.voterId == v &&
    match FindVoter(cfg.roll, v)
    case Some(row) => b.lastName == row.lastName && b.firstName == row.firstName && b.middleName == row.middleName
    case None => b.lastName == b.firstName == b.middleName == ""
  }

  predicate Redeemed(r: Rounds, r': Rounds, v: uint32) {
    r'.status == r.status[v := CheckedIn] && r'.timers == r.timers - {v}
  }

  /** The one signature that the step adds is on reply `b`, and the rest of the world goes with the reply. */
  predicate AnsweredBy(cfg: Config, w: World, w': World, st: Step, c: uint32, r: TicketRequest, b: TicketReplyBody)
    requires st.Message? && TicketGood(cfg, w, c, r)
  {
    var entry := TicketFile.Contents(w.service.ticketFile)[r.body.ticket]; var v := entry.voterId;
    && w'.signed == w.signed + {Signed(cfg.serviceKey, TicketReply(b), st.bytes)}
    && About(cfg, b, v) && b.pin == r.body.pin
    && (b.approved <==> PinIs(cfg, v, r.body.pin) && WindowOpen(cfg, w, v))
    && b.secret == (if b.approved then entry.secret else "")
    && w'.log == w.log + (if b.approved then [Approved(v, r, w.service.directory.verifiers[c], entry.secret, w.clock)]
                          else [])
    && (if b.approved then Redeemed(w.service.rounds, w'.service.rounds, v)
        else w'.service.rounds == w.service.rounds)
    && w'.service.ticketFile == w.service.ticketFile && RestKept(w, w')
    && w'.service.armed == w.service.armed - {st.endpoint}
  }

  /** A good Phase 2 request gets exactly one signed reply, with the ticket's voter, the names on the roll
      and the PIN that was sent. It approves exactly if the PIN is the voter's and the voter's round is in
      its window; then it brings the ticket's secret and the voter is checked in. Otherwise it brings no
      secret and nothing changes. Either way the connection is not read from again. */
  lemma {:induction false} TicketAnswered(
      cfg: Config, start: World, steps: seq<Step>, st: Step, c: uint32, r: TicketRequest)
    returns (b: TicketReplyBody)
    requires Initial(cfg, start) && Delivered(cfg, Exec(cfg, start, steps), st, c, TrustedClient)
    requires st.asTicket == Ok(r) && TicketGood(cfg, Exec(cfg, start, steps), c, r)
    ensures AnsweredBy(cfg, Exec(cfg, start, steps), Next(cfg, Exec(cfg, start, steps), st), st, c, r, b)
  {
    hide Exec; hide Next; hide Enabled; hide AnsweredBy;
    var w := Exec(cfg, start, steps);
    InvAlways(cfg, start, steps);
    b := TicketReplyTo(cfg, w, st, c, r);
  }

  lemma TicketReplyTo(cfg: Config, w: World, st: Step, c: uint32, r: TicketRequest) returns (b: TicketReplyBody)
    requires KeysOk(cfg, w.service.directory) && TicketsOk(w.service) && Valid(w.service.rounds)
    requires Delivered(cfg, w, st, c, TrustedClient) && st.asTicket == Ok(r) && TicketGood(cfg, w, c, r)
    ensures AnsweredBy(cfg, w, Next(cfg, w, st), st, c, r, b)
  {
    hide Next; hide Enabled; hide Fresh; hide FindVoter; hide Dec; hide TicketFile.Contents; hide EnsureKey; hide Valid;
    hide KeysOk; hide Finish; hide Hex;
    var s1 := w.service.(armed := w.service.armed - {st.endpoint});
    NextIsRedeem(cfg, w, st, c);
    RefreshedIsFile(w.service);
    assert Refreshed(s1) == Refreshed(w.service);
    SenderHasKey(cfg, w, st.endpoint);
    b := RedeemReply(cfg, s1, w.signed, w.clock, c, r);
    if b.approved {
      FinishKeepsValid(w.service.rounds, b.voterId);
      FinishTakesTimer(w.service.rounds, b.voterId);
    }
  }

  lemma FinishTakesTimer(r: Rounds, v: uint32)
    ensures Finish(r, v).timers == r.timers - {v}
  {}

  lemma RedeemReply(cfg: Config, s: Service, signed: set<Signed>, clock: Clock, c: uint32, r: TicketRequest)
    returns (b: TicketReplyBody)
    requires EnsureKey(cfg, s.directory, c) == s.directory
    requires r.body.clientId == c && r.body.ticket in Refreshed(s) && c in s.directory.verifiers
    requires Signed(s.directory.verifiers[c], TicketRequestBody(r.body), r.signature) in signed
    requires Fresh(clock.wall, r.body.timestamp, cfg.freshness, cfg.absMin)
    ensures var (s', reply) := Redeem(cfg, s, signed, clock, c, Ok(r));
            var entry := Refreshed(s)[r.body.ticket]; var v := entry.voterId; var timers := s.rounds.timers;
            && reply == TicketReplied(b) && About(cfg, b, v) && b.pin == r.body.pin
            && (b.approved <==> PinIs(cfg, v, r.body.pin) && v in timers &&
                                timers[v].expiry - cfg.timeout <= clock.steady <= timers[v].expiry)
            && b.secret == (if b.approved then entry.secret else "")
            && s' == s.(tickets := Refreshed(s), rounds := if b.approved then Finish(s.rounds, v) else s.rounds)
  {
    hide Fresh; hide Finish; hide FindVoter; hide Dec; hide EnsureKey; hide TicketFile.Contents;
    var s0 := s.(tickets := Refreshed(s));
    assert Refreshed(s0) == Refreshed(s);
    assert Answers(cfg, s0, signed, clock, c, r);
    b := Redeem(cfg, s, signed, clock, c, Ok(r)).1.ticket;
    assert |Dec(r.body.pin)| > 0;
  }

  // ------------------------------------------------------------------------------- phase 1

  /** Client id, signatures, voter, timestamp and status of the request are good. */
  predicate CheckinGood(cfg: Config, w: World, c: uint32, r: CheckinRequest) {
    var id := r.body.verified;
    && r.body.clientId == c
    && SignedBy(w, c, CheckinRequestBody(r.body), r.signature)
    && Signed(cfg.idKey, StatementBody(id.presented, id.voterId), id.signature) in w.signed
    && id.voterId == r.body.voterId
    && Fresh(w.clock.wall, r.body.timestamp, cfg.freshness, cfg.absMin)
    && HasStatus(w.service.rounds, r.body.voterId, Eligible)
  }

  /** A new timer waits for the voter, whose status is PENDING; nobody else is touched. */
  predicate Begun(r: Rounds, r': Rounds, v: uint32, expiry: int) {
    && r'.status == r.status[v := Pending]
    && r'.timers == r.timers[v := Timer(r.nextTimer, expiry)] && r.nextTimer < r'.nextTimer
    && r'.handlers == r.handlers[r.nextTimer := Handler(v, expiry, Waiting)]
  }

  /** A ticket line is added to the file. */
  predicate Recorded(w: World, w': World, ticket: string, v: uint32, secret: string) {
    && w'.service.ticketFile == w.service.ticketFile + ticket + "," + Dec(v) + "," + secret + "\n"
    && TicketFile.Contents(w'.service.ticketFile)
    == TicketFile.Contents(w.service.ticketFile)[ticket := TicketFile.Entry(v, secret)]
  }

  /** Every check-in request that can be read gets exactly one signed reply, which repeats its client,
      names and voter and is dated now. It approves exactly if the request is good; then it brings the new
      ticket, which is recorded, and the voter's round begins. Otherwise it brings no ticket and nothing
      changes. Either way the connection is read from again. */
  lemma {:induction false} CheckinAnswered(
      cfg: Config, start: World, steps: seq<Step>, st: Step, c: uint32, r: CheckinRequest)
    returns (b: CheckinReplyBody)
    requires Initial(cfg, start) && Delivered(cfg, Exec(cfg, start, steps), st, c, UntrustedClient)
    requires st.asCheckin == Ok(r)
    ensures var w, w' := Exec(cfg, start, steps), Next(cfg, Exec(cfg, start, steps), st);
            var ticket, secret := Hex(st.ticketBytes), Hex(st.secretBytes);
            && w'.signed == w.signed + {Signed(cfg.serviceKey, CheckinReply(b), st.bytes)}
            && b.clientId == r.body.clientId && b.voterId == r.body.voterId && b.timestamp == w.clock.wall
            && b.lastName == r.body.lastName && b.firstName == r.body.firstName && b.middleName == r.body.middleName
            && (b.approved <==> CheckinGood(cfg, w, c, r)) && b.ticket == (if b.approved then ticket else "")
            && (if b.approved then
                  && w'.log == w.log + [Accepted(b.voterId, r, w.service.directory.verifiers[c], ticket, secret,
                                                 w.clock)]
                  && Begun(w.service.rounds, w'.service.rounds, b.voterId, w.clock.steady + cfg.timeout)
                  && Recorded(w, w', ticket, b.voterId, secret)
                else
                  && w'.log == w.log && w'.service.rounds == w.service.rounds
                  && w'.service.ticketFile == w.service.ticketFile)
            && RestKept(w, w') && w'.service.armed == w.service.armed
  {
    hide Exec; hide Next; hide Enabled; hide Hex; hide TicketFile.Contents; hide Dec; hide Fresh; hide VotersOk;
    var w := Exec(cfg, start, steps);
    InvAlways(cfg, start, steps);
    b := CheckinReplyTo(cfg, w, st, c, r);
    if b.approved {
      var v := b.voterId;
      assert VotersOk(cfg, w);
      BeginsCleanly(cfg, w, v, w.clock.steady + cfg.timeout);
      RecordsTicket(cfg, w, Next(cfg, w, st), st, v);
    }
  }

  lemma BeginsCleanly(cfg: Config, w: World, v: uint32, expiry: int)
    requires VotersOk(cfg, w) && HasStatus(w.service.rounds, v, Eligible)
    ensures Begun(w.service.rounds, Begin(w.service.rounds, v, expiry), v, expiry)
  {
    assert EntryOk(w.service.rounds, v);
  }

  lemma RecordsTicket(cfg: Config, w: World, w': World, st: Step, v: uint32)
    requires TicketsOk(w.service) && st.Message? && Enabled(cfg, w, st)
    requires w'.service.ticketFile
          == w.service.ticketFile + TicketFile.Line(Hex(st.ticketBytes), v, Hex(st.secretBytes)) + "\n"
    ensures Recorded(w, w', Hex(st.ticketBytes), v, Hex(st.secretBytes))
  {
    hide Hex; hide Dec; hide TicketFile.Contents; hide Terminated;
    TicketFile.ContentsAppend(w.service.ticketFile, Hex(st.ticketBytes), v, Hex(st.secretBytes));
    Spread(w.service.ticketFile, Hex(st.ticketBytes), Dec(v), Hex(st.secretBytes));
  }

  lemma Spread(file: string, ticket: string, id: string, secret: string)
    ensures file + (ticket + "," + id + "," + secret) + "\n" == file + ticket + "," + id + "," + secret + "\n"
  {}

  lemma CheckinReplyTo(cfg: Config, w: World, st: Step, c: uint32, r: CheckinRequest) returns (b: CheckinReplyBody)
    requires KeysOk(cfg, w.service.directory)
    requires Delivered(cfg, w, st, c, UntrustedClient) && st.asCheckin == Ok(r)
    ensures var w' := Next(cfg, w, st); var ticket, secret := Hex(st.ticketBytes), Hex(st.secretBytes);
            && w'.signed == w.signed + {Signed(cfg.serviceKey, CheckinReply(b), st.bytes)}
            && b.clientId == r.body.clientId && b.voterId == r.body.voterId && b.timestamp == w.clock.wall
            && b.lastName == r.body.lastName && b.firstName == r.body.firstName && b.middleName == r.body.middleName
            && (b.approved <==> CheckinGood(cfg, w, c, r)) && b.ticket == (if b.approved then ticket else "")
            && (if b.approved then
                  && w'.log == w.log + [Accepted(b.voterId, r, w.service.directory.verifiers[c], ticket, secret,
                                                 w.clock)]
                  && w'.service.rounds == Begin(w.service.rounds, b.voterId, w.clock.steady + cfg.timeout)
                  && w'.service.ticketFile
                  == w.service.ticketFile + TicketFile.Line(ticket, b.voterId, secret) + "\n"
                else
                  && w'.log == w.log && w'.service.rounds == w.service.rounds
                  && w'.service.ticketFile == w.service.ticketFile)
            && RestKept(w, w') && w'.service.armed == w.service.armed
  {
    hide Next; hide Fresh; hide EnsureKey; hide KeysOk; hide Begin; hide Hex; hide TicketFile.Line;
    var s1 := w.service.(armed := w.service.armed - {st.endpoint});
    NextIsCheckin(cfg, w, st, c);
    SenderHasKey(cfg, w, st.endpoint);
    b := Checkin(cfg, s1, w.signed, w.clock, st.endpoint, c, r, Hex(st.ticketBytes), Hex(st.secretBytes)).1.checkin;
    assert w.service.armed - {st.endpoint} + {st.endpoint} == w.service.armed;
  }

  // ---------------------------------------------------------------------------- no answer

  /** The message is one that `TicketAnswered` or `CheckinAnswered` is about. */
  ghost predicate Answerable(cfg: Config, w: World, st: Step)
    requires st.Message?
  {
    exists c: uint32 ::
      || (SentBy(w, st.endpoint, c, UntrustedClient) && st.asCheckin.Ok?)
      || (SentBy(w, st.endpoint, c, TrustedClient) && st.asTicket.Ok? && TicketGood(cfg, w, c, st.asTicket.value))
  }

  /** Every other message is ignored: one that cannot be read, one of a client that was never typed, and a
      Phase 2 request with the wrong sender, ticket, signature or timestamp. */
  lemma {:induction false} OthersIgnored(cfg: Config, start: World, steps: seq<Step>, st: Step)
    requires Initial(cfg, start) && st.Message? && Enabled(cfg, Exec(cfg, start, steps), st)
    requires !Answerable(cfg, Exec(cfg, start, steps), st)
    ensures Ignored(Exec(cfg, start, steps), Next(cfg, Exec(cfg, start, steps), st), st.endpoint)
  {
    hide Exec; hide Enabled; hide Next; hide TicketGood; hide Ignored;
    var w := Exec(cfg, start, steps);
    InvAlways(cfg, start, steps);
    if c: uint32 :| SentBy(w, st.endpoint, c, TrustedClient) {
      TicketIgnored(cfg, w, st, c);
    } else {
      UnreadIgnored(cfg, w, st);
    }
  }

  lemma UnreadIgnored(cfg: Config, w: World, st: Step)
    requires st.Message? && Enabled(cfg, w, st)
    requires forall c: uint32 :: !Handled(cfg, w, st, c)
    ensures Ignored(w, Next(cfg, w, st), st.endpoint)
  {
    hide Next; hide Handled;
    NextIfUnhandled(cfg, w, st);
  }

  lemma TicketIgnored(cfg: Config, w: World, st: Step, c: uint32)
    requires KeysOk(cfg, w.service.directory) && TicketsOk(w.service)
    requires Delivered(cfg, w, st, c, TrustedClient)
    requires st.asTicket.Err? || !TicketGood(cfg, w, c, st.asTicket.value)
    ensures Ignored(w, Next(cfg, w, st), st.endpoint)
  {
    hide Next; hide Enabled; hide Fresh; hide TicketFile.Contents; hide EnsureKey; hide KeysOk; hide Hex;
    hide Confirms; hide TicketAnswer;
    var s1 := w.service.(armed := w.service.armed - {st.endpoint});
    NextIsRedeem(cfg, w, st, c);
    RefreshedIsFile(w.service);
    assert Refreshed(s1) == Refreshed(w.service);
    assert Refreshed(s1.(tickets := Refreshed(s1))) == Refreshed(s1);
    SenderHasKey(cfg, w, st.endpoint);
  }

  /** A key is loaded when it is first needed, and without one in the folder either there is no answer: in
      any world, reachable or not, that has typed a client without recording a key for it. */
  lemma {:induction false} KeyLoadedOnDemand(cfg: Config, w: World, st: Step, c: uint32, r: CheckinRequest)
    requires Delivered(cfg, w, st, c, UntrustedClient) && st.asCheckin == Ok(r) && r.body.clientId == c
    requires c !in w.service.directory.verifiers
    ensures var w' := Next(cfg, w, st);
            if c in cfg.keyFiles then
              && w'.service.directory.verifiers == w.service.directory.verifiers[c := cfg.keyFiles[c]]
              && w'.service.armed == w.service.armed
            else Ignored(w, w', st.endpoint)
  {
    hide Next; hide Fresh; hide Begin; hide Hex; hide TicketFile.Line; hide Validates;
    NextIsCheckin(cfg, w, st, c);
    assert w.service.armed - {st.endpoint} + {st.endpoint} == w.service.armed;
  }

  /** In every run: a refusal that the check-in service signed carries neither a secret nor a ticket. */
  lemma {:induction false} RefusalsGiveNothing(
      cfg: Config, start: World, steps: seq<Step>, t: TicketReplyBody, b: CheckinReplyBody, bytes: seq<byte>)
    requires Initial(cfg, start) && !t.approved && !b.approved
    ensures var signed := Exec(cfg, start, steps).signed;
            && (Signed(cfg.serviceKey, TicketReply(t), bytes) in signed ==> t.secret == "")
            && (Signed(cfg.serviceKey, CheckinReply(b), bytes) in signed ==> b.ticket == "")
  {
    InvAlways(cfg, start, steps);
    var w := Exec(cfg, start, steps);
    var x, y := Signed(cfg.serviceKey, TicketReply(t), bytes), Signed(cfg.serviceKey, CheckinReply(b), bytes);
    assert x in w.signed ==> SignatureOk(cfg, w.log, x);
    assert y in w.signed ==> SignatureOk(cfg, w.log, y);
  }

  // ------------------------------------------------------------------------- the ID service

  /** Letters of either case count as the same letter; other characters count as themselves. */
  predicate SameLetters(a: string, b: string) {
    |a| == |b| && forall i :: 0 <= i < |a| ==> SameLetter(a[i], b[i])
  }

  predicate SameLetter(c: char, d: char) { c == d || Pair(c, d) || Pair(d, c) }

  /** The same place in the two alphabets. */
  predicate Pair(capital: char, small: char) {
    'A' <= capital <= 'Z' && 'a' <= small <= 'z' && capital - 'A' == small - 'a'
  }

  /** The voter has a full record: id, last name, first name, middle name, and four more columns. */
  predicate OnRecord(cfg: Config, b: VoterIdBody, v: uint32) {
    v in cfg.records && |cfg.records[v]| >= 8 &&
    var record := cfg.records[v];
    SameLetters(b.lastName, record[1]) && SameLetters(b.firstName, record[2]) && SameLetters(b.middleName, record[3])
  }

  lemma LetterFolded(c: char, d: char)
    ensures Lower(c) == Lower(d) <==> SameLetter(c, d)
  {}

  /** Names are compared letter by letter, whatever their case. */
  lemma {:induction false} NamesFolded(a: string, b: string)
    ensures EqualFold(a, b) <==> SameLetters(a, b)
  {
    hide Lower; hide SameLetter;
    forall i | |a| == |b| && 0 <= i < |a| ensures Lower(a[i]) == Lower(b[i]) <==> SameLetter(a[i], b[i]) {
      LetterFolded(a[i], b[i]);
    }
  }

  lemma {:induction false} NamesOnRecord(cfg: Config, b: VoterIdBody, v: uint32)
    ensures NamesMatch(cfg.records, b, v) <==> OnRecord(cfg, b, v)
  {
    hide EqualFold; hide SameLetters;
    if v in cfg.records && |cfg.records[v]| >= 8 {
      NamesFolded(b.lastName, cfg.records[v][1]);
      NamesFolded(b.firstName, cfg.records[v][2]);
      NamesFolded(b.middleName, cfg.records[v][3]);
    }
  }

  /** The number in the first four bytes, lowest first. */
  predicate LeadsWith(d: seq<byte>, v: uint32)
    requires |d| >= 4
  {
    exists a, b, c, e :: d[..4] == [a, b, c, e] &&
      v == a as int + 256 * b as int + 256 * 256 * c as int + 256 * 256 * 256 * e as int
  }

  /** The key under which the ID service checks a client: the one it holds, or the one in its key folder. */
  function KeyOnHand(cfg: Config, ids: IdService, c: uint32): Option<PublicKey> {
    if c in ids.verifiers then Some(ids.verifiers[c])
    else if c in cfg.idKeyFiles then Some(cfg.idKeyFiles[c]) else None
  }

  /** The ID service signs a statement exactly for a fresh request with an id that is not the reserved one,
      names that are on record for it, and the client's signature; otherwise it signs nothing. */
  lemma {:induction false} StatementSignedIff(cfg: Config, w: World, st: Step, v: uint32)
    requires st.IdMessage? && Enabled(cfg, w, st) && LeadsWith(st.request.body.idData + st.beyond, v)
    ensures var w', r := Next(cfg, w, st), st.request; var key := KeyOnHand(cfg, w.idService, r.body.clientId);
            var good := && Fresh(w.clock.wall, r.body.timestamp, cfg.freshness, cfg.absMin)
                        && v != 4294967295 && OnRecord(cfg, r.body, v)
                        && key.Some? && Signed(key.value, IdRequestBody(r.body), r.signature) in w.signed;
            && w'.signed == (if good then w.signed + {Signed(cfg.idKey, StatementBody(r, v), st.bytes)} else w.signed)
            && w'.log == (if good then w.log + [IdConfirmed(r, v)] else w.log)
            && w'.service == w.service && w'.clock == w.clock
            && (good ==> w'.idService.verifiers == w.idService.verifiers[r.body.clientId := key.value])
  {
    hide Fresh; hide NamesMatch; hide OnRecord;
    var d := st.request.body.idData + st.beyond;
    assert d[..4] == [d[0], d[1], d[2], d[3]];
    assert MatchId(st.request.body.idData, st.beyond) == v;
    NamesOnRecord(cfg, st.request.body, v);
  }
}
