/** The effect of one step, case by case: what a message does besides being answered. */
module Effects {
  import opened Text
  import opened Messages
  import opened Freshness
  import opened Rounds
  import opened Roll
  import opened Protocol
  import TicketFile

  /** The event that a step adds to the log, if any. */
  function Added(cfg: Config, w: World, st: Step): seq<Event> {
    var w' := Next(cfg, w, st);
    if |w.log| <= |w'.log| then w'.log[|w.log|..] else []
  }

  /** A message that gets nobody past a phase. */
  predicate Rejected(cfg: Config, w: World, st: Step) { st.Message? && Added(cfg, w, st) == [] }

  /** `client` is who the certificate of the endpoint named, and it has the given type. */
  predicate SentBy(w: World, ep: Endpoint, client: uint32, kind: ClientType) {
    var d := w.service.directory;
    ep in d.clientIds && d.clientIds[ep] == client && client in d.clients && d.clients[client] == kind
  }

  predicate PinnedAfter(cfg: Config, w: World, c: uint32, key: PublicKey) {
    var d := EnsureKey(cfg, w.service.directory, c);
    c in d.verifiers && d.verifiers[c] == key
  }

  /** Phase 1 accepts in this step. */
  predicate AcceptsNow(cfg: Config, w: World, st: Step, e: Event) {
    && st.Message? && e.Accepted? && st.asCheckin == Ok(e.request)
    && e.voterId == e.request.body.voterId && e.at == w.clock
    && e.ticket == Hex(st.ticketBytes) && e.secret == Hex(st.secretBytes)
    && SentBy(w, st.endpoint, e.request.body.clientId, UntrustedClient)
    && PinnedAfter(cfg, w, e.request.body.clientId, e.key)
    && Validates(cfg, w.signed, e.key, e.request, w.clock.wall)
    && HasStatus(w.service.rounds, e.voterId, Eligible)
  }

  /** Phase 2 approves in this step. */
  predicate ApprovesNow(cfg: Config, w: World, st: Step, e: Event) {
    && st.Message? && e.Approved? && st.asTicket == Ok(e.redeemed) && e.at == w.clock
    && SentBy(w, st.endpoint, e.redeemed.body.clientId, TrustedClient)
    && PinnedAfter(cfg, w, e.redeemed.body.clientId, e.key)
    && Signed(e.key, TicketRequestBody(e.redeemed.body), e.redeemed.signature) in w.signed
    && Fresh(w.clock.wall, e.redeemed.body.timestamp, cfg.freshness, cfg.absMin)
    && e.redeemed.body.ticket in Refreshed(w.service)
    && Refreshed(w.service)[e.redeemed.body.ticket] == TicketFile.Entry(e.voterId, e.secret)
    && Confirms(cfg, w.service, w.clock, e.voterId, e.redeemed.body.pin)
  }

  /** The rounds and the ticket file after a message that left event `e`. */
  predicate Advances(cfg: Config, w: World, w': World, e: Event) {
    var s, s' := w.service, w'.service;
    if e.Accepted? then
      && s'.rounds == Begin(s.rounds, e.voterId, w.clock.steady + cfg.timeout)
      && s'.ticketFile == s.ticketFile + TicketFile.Line(e.ticket, e.voterId, e.secret) + "\n"
      && s'.tickets == s.tickets[e.ticket := TicketFile.Entry(e.voterId, e.secret)]
    else
      && s'.rounds == Finish(s.rounds, e.voterId)
      && s'.ticketFile == s.ticketFile && s'.tickets == Refreshed(s)
  }

  /** A message is accepted by Phase 1, approved by Phase 2, or leaves the rounds and the ticket file alone. */
  lemma {:induction false} MessageEffect(cfg: Config, w: World, st: Step)
    requires st.Message?
    ensures var w' := Next(cfg, w, st); var added := Added(cfg, w, st);
            && w'.log == w.log + added && |added| <= 1
            && w'.clock == w.clock && w'.idService == w.idService
            && if added == [] then
                 && w'.service.rounds == w.service.rounds && w'.service.ticketFile == w.service.ticketFile
                 && (w'.service.tickets == w.service.tickets || w'.service.tickets == Refreshed(w.service))
               else
                 && Enabled(cfg, w, st) && (AcceptsNow(cfg, w, st, added[0]) || ApprovesNow(cfg, w, st, added[0]))
                 && Advances(cfg, w, w', added[0])
  {
    var w' := Next(cfg, w, st);
    if Enabled(cfg, w, st) {
      var ep, d := st.endpoint, w.service.directory;
      if ep in d.clientIds && d.clientIds[ep] in d.clients {
        if d.clients[d.clientIds[ep]].TrustedClient? {
          RedeemEffect(cfg, w, st);
        } else {
          CheckinEffect(cfg, w, st);
        }
      }
    }
  }

  /** A step adds at most one event to the log. */
  lemma StepEvents(cfg: Config, w: World, st: Step)
    ensures var added := Added(cfg, w, st);
            && Next(cfg, w, st).log == w.log + added && |added| <= 1
            && (added != [] ==>
                  && (added[0].Accepted? ==> AcceptsNow(cfg, w, st, added[0]))
                  && (added[0].Approved? ==> ApprovesNow(cfg, w, st, added[0]))
                  && (added[0].Reverted? ==> st.HandlerRuns? && Ends(w.service.rounds, st.handler) &&
                                             added[0].voterId == w.service.rounds.handlers[st.handler].voterId))
  {
    if st.Message? { MessageEffect(cfg, w, st); }
  }

  lemma CheckinCases(cfg: Config, s: Service, signed: set<Signed>, clock: Clock, ep: Endpoint, c: uint32,
                     r: CheckinRequest, ticket: string, secret: string)
    ensures var (s', reply) := Checkin(cfg, s, signed, clock, ep, c, r, ticket, secret);
            && !reply.TicketReplied?
            && (s'.directory == s.directory || s'.directory == EnsureKey(cfg, s.directory, c))
            && if reply.CheckinReplied? && reply.checkin.approved then
                 var d := EnsureKey(cfg, s.directory, c);
                 && reply.checkin.clientId == c == r.body.clientId && reply.checkin.voterId == r.body.voterId
                 && reply.checkin.ticket == ticket
                 && c in d.verifiers && Validates(cfg, signed, d.verifiers[c], r, clock.wall)
                 && HasStatus(s.rounds, r.body.voterId, Eligible)
                 && s' == Issue(cfg, s, clock.steady, r.body.voterId, ticket, secret)
                          .(directory := d, armed := s.armed + {ep})
               else
                 && s'.rounds == s.rounds && s'.ticketFile == s.ticketFile && s'.tickets == s.tickets
                 && (reply.CheckinReplied? ==> reply.checkin.ticket == "")
  {}

  lemma RedeemCases(cfg: Config, s: Service, signed: set<Signed>, clock: Clock, c: uint32, m: Result<TicketRequest>)
    ensures var (s', reply) := Redeem(cfg, s, signed, clock, c, m);
            && !reply.CheckinReplied?
            && (s'.directory == s.directory || s'.directory == EnsureKey(cfg, s.directory, c))
            && if reply.TicketReplied? && reply.ticket.approved then
                 var d := EnsureKey(cfg, s.directory, c);
                 && m.Ok? && m.value.body.clientId == c && m.value.body.ticket in Refreshed(s)
                 && Refreshed(s)[m.value.body.ticket] == TicketFile.Entry(reply.ticket.voterId, reply.ticket.secret)
                 && c in d.verifiers
                 && Signed(d.verifiers[c], TicketRequestBody(m.value.body), m.value.signature) in signed
                 && Fresh(clock.wall, m.value.body.timestamp, cfg.freshness, cfg.absMin)
                 && Confirms(cfg, s, clock, reply.ticket.voterId, m.value.body.pin)
                 && s' == s.(tickets := Refreshed(s), directory := d, rounds := Finish(s.rounds, reply.ticket.voterId))
               else
                 && s'.rounds == s.rounds && s'.ticketFile == s.ticketFile && s'.tickets == Refreshed(s)
                 && (reply.TicketReplied? ==> reply.ticket.secret == "")
  {
    hide Fresh; hide Finish; hide FindVoter; hide PinOf; hide Dec; hide InWindow; hide EnsureKey;
    hide TicketFile.Contents;
    assert Refreshed(s.(tickets := Refreshed(s))) == Refreshed(s);
  }

  /** The world after the service has answered a message. */
  function AfterReply(cfg: Config, w: World, st: Step, s: Service, reply: Reply): World
    requires st.Message? && (reply.CheckinReplied? ==> st.asCheckin.Ok?) && (reply.TicketReplied? ==> st.asTicket.Ok?)
  {
    w.(service := s, signed := w.signed + ReplySignature(cfg, reply, st.bytes),
       log := w.log + ReplyEvents(w.(service := s), st, reply))
  }

  lemma NextIsCheckin(cfg: Config, w: World, st: Step, c: uint32)
    requires st.Message? && Enabled(cfg, w, st) && SentBy(w, st.endpoint, c, UntrustedClient) && st.asCheckin.Ok?
    ensures var (s', reply) := Checkin(cfg, w.service.(armed := w.service.armed - {st.endpoint}), w.signed, w.clock,
                                       st.endpoint, c, st.asCheckin.value, Hex(st.ticketBytes), Hex(st.secretBytes));
            !reply.TicketReplied? && Next(cfg, w, st) == AfterReply(cfg, w, st, s', reply)
  {}

  lemma NextIsRedeem(cfg: Config, w: World, st: Step, c: uint32)
    requires st.Message? && Enabled(cfg, w, st) && SentBy(w, st.endpoint, c, TrustedClient)
    ensures var (s', reply) := Redeem(cfg, w.service.(armed := w.service.armed - {st.endpoint}), w.signed, w.clock,
                                      c, st.asTicket);
            !reply.CheckinReplied? && (reply.TicketReplied? ==> st.asTicket.Ok?)
            && Next(cfg, w, st) == AfterReply(cfg, w, st, s', reply)
  {}

  lemma CheckinEffect(cfg: Config, w: World, st: Step)
    requires st.Message? && Enabled(cfg, w, st)
    requires st.endpoint in w.service.directory.clientIds
    requires SentBy(w, st.endpoint, w.service.directory.clientIds[st.endpoint], UntrustedClient)
    ensures var w' := Next(cfg, w, st);
            if w'.log == w.log then
              && w'.service.rounds == w.service.rounds && w'.service.ticketFile == w.service.ticketFile
              && w'.service.tickets == w.service.tickets
            else
              && |w'.log| == |w.log| + 1 && w.log <= w'.log && w'.log[|w.log|].Accepted?
              && AcceptsNow(cfg, w, st, w'.log[|w.log|]) && Advances(cfg, w, w', w'.log[|w.log|])
  {
    hide Validates; hide Begin; hide Hex;
    var s1 := w.service.(armed := w.service.armed - {st.endpoint});
    if st.asCheckin.Ok? {
      var c := w.service.directory.clientIds[st.endpoint];
      NextIsCheckin(cfg, w, st, c);
      CheckinCases(cfg, s1, w.signed, w.clock, st.endpoint, c, st.asCheckin.value,
                   Hex(st.ticketBytes), Hex(st.secretBytes));
    }
  }

  lemma RedeemEffect(cfg: Config, w: World, st: Step)
    requires st.Message? && Enabled(cfg, w, st)
    requires st.endpoint in w.service.directory.clientIds
    requires SentBy(w, st.endpoint, w.service.directory.clientIds[st.endpoint], TrustedClient)
    ensures var w' := Next(cfg, w, st);
            if w'.log == w.log then
              && w'.service.rounds == w.service.rounds && w'.service.ticketFile == w.service.ticketFile
              && w'.service.tickets == Refreshed(w.service)
            else
              && |w'.log| == |w.log| + 1 && w.log <= w'.log && w'.log[|w.log|].Approved?
              && ApprovesNow(cfg, w, st, w'.log[|w.log|]) && Advances(cfg, w, w', w'.log[|w.log|])
  {
    hide Next; hide Redeem; hide Enabled; hide Fresh; hide Finish; hide FindVoter; hide InWindow; hide Dec; hide Hex;
    hide TicketFile.Contents; hide EnsureKey;
    var c := w.service.directory.clientIds[st.endpoint];
    var s1 := w.service.(armed := w.service.armed - {st.endpoint});
    NextIsRedeem(cfg, w, st, c);
    RedeemCases(cfg, s1, w.signed, w.clock, c, st.asTicket);
    assert Refreshed(s1) == Refreshed(w.service);
    var (s', reply) := Redeem(cfg, s1, w.signed, w.clock, c, st.asTicket);
    if reply.TicketReplied? && reply.ticket.approved {
      var b := reply.ticket;
      var e := Approved(b.voterId, st.asTicket.value, s'.directory.verifiers[c], b.secret, w.clock);
      assert Next(cfg, w, st).log == w.log + [e];
      assert Confirms(cfg, w.service, w.clock, b.voterId, e.redeemed.body.pin);
    }
  }

  /** The client whose handler gets the message. */
  predicate Handled(cfg: Config, w: World, st: Step, c: uint32) {
    && st.Message? && Enabled(cfg, w, st)
    && (SentBy(w, st.endpoint, c, TrustedClient) || (SentBy(w, st.endpoint, c, UntrustedClient) && st.asCheckin.Ok?))
  }

  lemma NextIfUnhandled(cfg: Config, w: World, st: Step)
    requires st.Message? && forall c: uint32 :: !Handled(cfg, w, st, c)
    ensures Next(cfg, w, st) == if Enabled(cfg, w, st)
                                then w.(service := w.service.(armed := w.service.armed - {st.endpoint})) else w
  {
    var ep, d := st.endpoint, w.service.directory;
    if ep in d.clientIds { assert !Handled(cfg, w, st, d.clientIds[ep]); }
  }

  /** A message changes the directory at most by loading the sender's key. */
  lemma MessageDirectory(cfg: Config, w: World, st: Step)
    requires st.Message?
    ensures var d, d' := w.service.directory, Next(cfg, w, st).service.directory;
            || d' == d
            || (st.endpoint in d.clientIds && d.clientIds[st.endpoint] in d.clients &&
                d' == EnsureKey(cfg, d, d.clientIds[st.endpoint]))
  {
    hide Next; hide Checkin; hide Redeem; hide EnsureKey; hide Refreshed; hide Issue; hide Finish;
    var s1 := w.service.(armed := w.service.armed - {st.endpoint});
    if c: uint32 :| Handled(cfg, w, st, c) {
      if SentBy(w, st.endpoint, c, TrustedClient) {
        NextIsRedeem(cfg, w, st, c);
        RedeemCases(cfg, s1, w.signed, w.clock, c, st.asTicket);
      } else {
        NextIsCheckin(cfg, w, st, c);
        CheckinCases(cfg, s1, w.signed, w.clock, st.endpoint, c, st.asCheckin.value,
                     Hex(st.ticketBytes), Hex(st.secretBytes));
      }
    } else {
      NextIfUnhandled(cfg, w, st);
    }
  }

  /** The reply that tells a kiosk of its acceptance. */
  function AcceptedReply(r: CheckinRequest, at: uint64, ticket: string): CheckinReplyBody {
    CheckinReplyBody(true, r.body.clientId, at, r.body.lastName, r.body.firstName, r.body.middleName, r.body.voterId,
                     ticket)
  }

  /** A request that meets the conditions of Phase 1 is accepted, and the signed reply brings the ticket. */
  lemma {:induction false} AcceptanceHappens(cfg: Config, w: World, st: Step, e: Event)
    requires Enabled(cfg, w, st) && AcceptsNow(cfg, w, st, e)
    ensures var w' := Next(cfg, w, st);
            && w'.log == w.log + [e] && Advances(cfg, w, w', e) && w'.service.armed == w.service.armed
            && Signed(cfg.serviceKey, CheckinReply(AcceptedReply(e.request, w.clock.wall, e.ticket)), st.bytes)
               in w'.signed
  {
    var c := e.request.body.clientId;
    NextIsCheckin(cfg, w, st, c);
    var s1 := w.service.(armed := w.service.armed - {st.endpoint});
    assert Accepts(cfg, s1.(directory := EnsureKey(cfg, s1.directory, c)), w.signed, w.clock, c, e.request);
  }

  lemma RedeemApproves(cfg: Config, s: Service, signed: set<Signed>, clock: Clock, c: uint32, r: TicketRequest)
    requires r.body.clientId == c && r.body.ticket in Refreshed(s)
    requires var d := EnsureKey(cfg, s.directory, c);
             c in d.verifiers && Signed(d.verifiers[c], TicketRequestBody(r.body), r.signature) in signed
    requires Fresh(clock.wall, r.body.timestamp, cfg.freshness, cfg.absMin)
    requires Confirms(cfg, s, clock, Refreshed(s)[r.body.ticket].voterId, r.body.pin)
    ensures var entry := Refreshed(s)[r.body.ticket];
            Redeem(cfg, s, signed, clock, c, Ok(r)) ==
              (s.(tickets := Refreshed(s), directory := EnsureKey(cfg, s.directory, c),
                  rounds := Finish(s.rounds, entry.voterId)),
               TicketReplied(TicketAnswer(cfg, true, entry.voterId, r.body.pin, entry.secret)))
  {
    var s0 := s.(tickets := Refreshed(s));
    assert Refreshed(s0) == Refreshed(s);
    assert Answers(cfg, s0.(directory := EnsureKey(cfg, s.directory, c)), signed, clock, c, r);
  }

  /** A request that meets the conditions of Phase 2 is approved, and gets the ticket's secret. */
  lemma {:induction false} ApprovalHappens(cfg: Config, w: World, st: Step, e: Event)
    requires Enabled(cfg, w, st) && ApprovesNow(cfg, w, st, e)
    ensures var w' := Next(cfg, w, st);
            && w'.log == w.log + [e] && Advances(cfg, w, w', e) && w'.service.armed == w.service.armed - {st.endpoint}
            && Signed(cfg.serviceKey, TicketReply(TicketAnswer(cfg, true, e.voterId, e.redeemed.body.pin, e.secret)),
                      st.bytes) in w'.signed
  {
    var c := e.redeemed.body.clientId;
    var s1 := w.service.(armed := w.service.armed - {st.endpoint});
    assert Refreshed(s1) == Refreshed(w.service);
    NextIsRedeem(cfg, w, st, c);
    RedeemApproves(cfg, s1, w.signed, w.clock, c, e.redeemed);
  }

  predicate IsReply(b: SignedBody) { b.CheckinReply? || b.TicketReply? }

  lemma CheckinFootprint(cfg: Config, s: Service, signed: set<Signed>, clock: Clock, ep: Endpoint, c: uint32,
                         r: CheckinRequest, ticket: string, secret: string)
    ensures Checkin(cfg, s, signed, clock, ep, c, r, ticket, secret).0.armed <= s.armed + {ep}
  {
    hide Accepts; hide EnsureKey; hide Begin; hide TicketFile.Line;
  }

  lemma RedeemFootprint(cfg: Config, s: Service, signed: set<Signed>, clock: Clock, c: uint32, m: Result<TicketRequest>)
    ensures Redeem(cfg, s, signed, clock, c, m).0.armed == s.armed
  {
    hide Answers; hide Confirms; hide EnsureKey; hide Finish; hide Refreshed; hide TicketAnswer;
  }

  /** A message disarms its endpoint or leaves it armed, moves no clock and no state of the ID
      service, and the only signature it leads to is the one on its reply. */
  lemma MessageFootprint(cfg: Config, w: World, st: Step)
    requires st.Message?
    ensures var w' := Next(cfg, w, st);
            && w'.service.armed <= w.service.armed && w'.clock == w.clock && w'.idService == w.idService
            && forall x: Signed :: !IsReply(x.body) ==> (x in w'.signed <==> x in w.signed)
  {
    hide Next; hide Checkin; hide Redeem; hide Hex; hide ReplyEvents;
    var s1 := w.service.(armed := w.service.armed - {st.endpoint});
    if c: uint32 :| Handled(cfg, w, st, c) {
      if SentBy(w, st.endpoint, c, TrustedClient) {
        NextIsRedeem(cfg, w, st, c);
        RedeemFootprint(cfg, s1, w.signed, w.clock, c, st.asTicket);
      } else {
        NextIsCheckin(cfg, w, st, c);
        CheckinFootprint(cfg, s1, w.signed, w.clock, st.endpoint, c, st.asCheckin.value,
                         Hex(st.ticketBytes), Hex(st.secretBytes));
      }
    } else {
      NextIfUnhandled(cfg, w, st);
    }
  }
}
