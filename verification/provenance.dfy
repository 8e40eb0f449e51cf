/** Where signatures, tickets and events come from, and when they happen. */
module Provenance {
  import opened Text
  import opened Messages
  import opened Freshness
  import opened Rounds
  import opened Roll
  import opened Protocol
  import opened Effects
  import opened Invariants
  import TicketFile

  // ---------------------------------------------------------------------------- signatures

  /** A signature under the ID service's key is a statement it confirmed; an approval signed by
      the check-in service is one it logged, and a refusal that it signed gives away neither a
      ticket nor a secret. */
  ghost predicate SignatureOk(cfg: Config, log: seq<Event>, x: Signed) {
    && (x.key == cfg.idKey ==>
          && x.body.StatementBody? && IdConfirmed(x.body.presented, x.body.voterId) in log
          && NamesMatch(cfg.records, x.body.presented.body, x.body.voterId))
    && (x.key == cfg.serviceKey ==>
          match x.body
          case CheckinReply(b) =>
            if b.approved then exists e :: e in log && e.Accepted? && e.voterId == b.voterId &&
                                           e.ticket == b.ticket && e.request.body.clientId == b.clientId
            else b.ticket == ""
          case TicketReply(b) =>
            if b.approved then exists e :: e in log && e.Approved? && e.voterId == b.voterId && e.secret == b.secret
            else b.secret == ""
          case _ => false)
  }

  ghost predicate SignaturesOk(cfg: Config, w: World) {
    cfg.idKey != cfg.serviceKey && forall x :: x in w.signed ==> SignatureOk(cfg, w.log, x)
  }

  lemma SignatureOkLater(cfg: Config, log: seq<Event>, more: seq<Event>, x: Signed)
    requires SignatureOk(cfg, log, x)
    ensures SignatureOk(cfg, log + more, x)
  {}

  /** A reply that approves comes with its event, so the signature on it is one that the log accounts for. */
  lemma ReplyAccounted(cfg: Config, w: World, st: Step, s: Service, reply: Reply)
    requires st.Message? && (reply.CheckinReplied? ==> st.asCheckin.Ok?) && (reply.TicketReplied? ==> st.asTicket.Ok?)
    requires cfg.idKey != cfg.serviceKey
    requires reply.CheckinReplied? && reply.checkin.approved ==>
               reply.checkin.clientId in s.directory.verifiers &&
               reply.checkin.clientId == st.asCheckin.value.body.clientId
    requires reply.TicketReplied? && reply.ticket.approved ==>
               st.asTicket.value.body.clientId in s.directory.verifiers
    requires reply.CheckinReplied? && !reply.checkin.approved ==> reply.checkin.ticket == ""
    requires reply.TicketReplied? && !reply.ticket.approved ==> reply.ticket.secret == ""
    ensures var w' := AfterReply(cfg, w, st, s, reply);
            w.signed <= w'.signed && forall x :: x in w'.signed && x !in w.signed ==> SignatureOk(cfg, w'.log, x)
  {
    hide Hex;
    var events := ReplyEvents(w.(service := s), st, reply);
    if events != [] { assert events[0] in w.log + events; }
  }

  /** The signature on a reply to a message is one that the log accounts for. */
  lemma ReplySignatureOk(cfg: Config, w: World, st: Step)
    requires st.Message? && Enabled(cfg, w, st) && cfg.idKey != cfg.serviceKey && KeysOk(cfg, w.service.directory)
    ensures forall x :: x in Next(cfg, w, st).signed && x !in w.signed ==> SignatureOk(cfg, Next(cfg, w, st).log, x)
    ensures w.signed <= Next(cfg, w, st).signed
  {
    hide Next; hide Enabled; hide Checkin; hide Redeem; hide AfterReply; hide SignatureOk; hide Validates;
    hide Confirms;
    hide Hex; hide Refreshed; hide Issue; hide Finish; hide Fresh; hide EnsureKey; hide KeysOk;
    var s1 := w.service.(armed := w.service.armed - {st.endpoint});
    if c: uint32 :| Handled(cfg, w, st, c) {
      SenderHasKey(cfg, w, st.endpoint);
      if SentBy(w, st.endpoint, c, TrustedClient) {
        NextIsRedeem(cfg, w, st, c);
        RedeemCases(cfg, s1, w.signed, w.clock, c, st.asTicket);
        var (s, reply) := Redeem(cfg, s1, w.signed, w.clock, c, st.asTicket);
        ReplyAccounted(cfg, w, st, s, reply);
      } else {
        NextIsCheckin(cfg, w, st, c);
        CheckinCases(cfg, s1, w.signed, w.clock, st.endpoint, c, st.asCheckin.value,
                     Hex(st.ticketBytes), Hex(st.secretBytes));
        var (s, reply) := Checkin(cfg, s1, w.signed, w.clock, st.endpoint, c, st.asCheckin.value,
                                  Hex(st.ticketBytes), Hex(st.secretBytes));
        ReplyAccounted(cfg, w, st, s, reply);
      }
    } else {
      NextIfUnhandled(cfg, w, st);
    }
  }

  lemma {:induction false} SignaturesKept(cfg: Config, w: World, st: Step)
    requires SignaturesOk(cfg, w) && KeysOk(cfg, w.service.directory)
    ensures SignaturesOk(cfg, Next(cfg, w, st)) && w.signed <= Next(cfg, w, st).signed
  {
    var w' := Next(cfg, w, st);
    if st.Message? && Enabled(cfg, w, st) {
      ReplySignatureOk(cfg, w, st);
      MessageEffect(cfg, w, st);
      forall x | x in w.signed ensures SignatureOk(cfg, w'.log, x) {
        SignatureOkLater(cfg, w.log, Added(cfg, w, st), x);
      }
    } else {
      assert w.log <= w'.log;
      forall x | x in w'.signed ensures SignatureOk(cfg, w'.log, x) {
        if x in w.signed { SignatureOkLater(cfg, w.log, w'.log[|w.log|..], x); }
      }
    }
  }

  // -------------------------------------------------------------------------------- events

  /** What must have been true when the event at `k` happened. `file` is the ticket
      file that the service found when it started. */
  ghost predicate EventOk(cfg: Config, w: World, file: string, k: nat)
    requires k < |w.log|
  {
    var d := w.service.directory;
    match w.log[k]
    case Accepted(v, r, key, ticket, secret, at) =>
      && IdConfirmed(r.body.verified.presented, v) in w.log[..k]
      && NamesMatch(cfg.records, r.body.verified.presented.body, v)
      && r.body.voterId == v
      && r.body.clientId !in cfg.trusted
      && r.body.clientId in d.verifiers && d.verifiers[r.body.clientId] == key
      && Signed(key, CheckinRequestBody(r.body), r.signature) in w.signed
      && Fresh(at.wall, r.body.timestamp, cfg.freshness, cfg.absMin)
    case Approved(v, r, key, secret, at) =>
      && r.body.clientId in cfg.trusted
      && r.body.clientId in d.verifiers && d.verifiers[r.body.clientId] == key
      && Signed(key, TicketRequestBody(r.body), r.signature) in w.signed
      && Fresh(at.wall, r.body.timestamp, cfg.freshness, cfg.absMin)
      && Dec(r.body.pin) == PinOf(FindVoter(cfg.roll, v))
      && IssuedBefore(w.log[..k], file, r.body.ticket, TicketFile.Entry(v, secret))
    case _ => true
  }

  predicate Issues(e: Event, ticket: string, entry: TicketFile.Entry) {
    e.Accepted? && e.ticket == ticket && e.voterId == entry.voterId && e.secret == entry.secret
  }

  /** A ticket with this voter and this secret was issued in this run, or it is in the file of an earlier one. */
  ghost predicate IssuedBefore(log: seq<Event>, file: string, ticket: string, entry: TicketFile.Entry) {
    || (exists e :: e in log && Issues(e, ticket, entry))
    || (ticket in TicketFile.Contents(file) && TicketFile.Contents(file)[ticket] == entry)
  }

  ghost predicate TicketsIssued(w: World, file: string) {
    forall t :: t in TicketFile.Contents(w.service.ticketFile) ==>
      IssuedBefore(w.log, file, t, TicketFile.Contents(w.service.ticketFile)[t])
  }

  ghost predicate EventsOk(cfg: Config, w: World, file: string) {
    TicketsIssued(w, file) && forall k :: 0 <= k < |w.log| ==> EventOk(cfg, w, file, k)
  }

  lemma IssuedLater(log: seq<Event>, more: seq<Event>, file: string, ticket: string, entry: TicketFile.Entry)
    requires IssuedBefore(log, file, ticket, entry)
    ensures IssuedBefore(log + more, file, ticket, entry)
  {}

  /** Facts about past events stay true while keys and signatures are only added. */
  lemma EventOkLater(cfg: Config, w: World, w': World, file: string, k: nat)
    requires k < |w.log| && EventOk(cfg, w, file, k)
    requires w.log <= w'.log && w.signed <= w'.signed && Extends(w.service.directory, w'.service.directory)
    ensures EventOk(cfg, w', file, k)
  {
    assert w'.log[..k] == w.log[..k] && w'.log[k] == w.log[k];
  }

  lemma NewEventOk(cfg: Config, w: World, w': World, st: Step, file: string, e: Event)
    requires SignaturesOk(cfg, w) && EventsOk(cfg, w, file) && TicketsOk(w.service) && KeysOk(cfg, w.service.directory)
    requires w'.log == w.log + [e] && w.signed <= w'.signed && w'.service.directory == w.service.directory
    requires AcceptsNow(cfg, w, st, e) || ApprovesNow(cfg, w, st, e)
    ensures EventOk(cfg, w', file, |w.log|)
  {
    var k := |w.log|;
    assert w'.log[..k] == w.log && w'.log[k] == e;
    SenderHasKey(cfg, w, st.endpoint);
    if e.Accepted? {
      var id := e.request.body.verified;
      var x := Signed(cfg.idKey, StatementBody(id.presented, id.voterId), id.signature);
      assert x in w.signed;
    } else {
      RefreshedIsFile(w.service);
    }
  }

  lemma TicketsIssuedAfter(cfg: Config, w: World, w': World, st: Step, file: string, e: Event)
    requires TicketsIssued(w, file) && TicketsOk(w.service) && Enabled(cfg, w, st)
    requires w'.log == w.log + [e] && Advances(cfg, w, w', e)
    requires AcceptsNow(cfg, w, st, e) || ApprovesNow(cfg, w, st, e)
    ensures TicketsIssued(w', file)
  {
    if e.Accepted? { TicketsAfterIssue(cfg, w, w', st, e); }
    var now := TicketFile.Contents(w'.service.ticketFile);
    forall t | t in now ensures IssuedBefore(w'.log, file, t, now[t]) {
      if e.Accepted? && t == e.ticket {
        assert e in w'.log && Issues(e, t, now[t]);
      } else {
        IssuedLater(w.log, [e], file, t, now[t]);
      }
    }
  }

  lemma EventsAfter(cfg: Config, w: World, w': World, file: string)
    requires EventsOk(cfg, w, file) && TicketsIssued(w', file)
    requires w.log <= w'.log && w.signed <= w'.signed && Extends(w.service.directory, w'.service.directory)
    requires forall k :: |w.log| <= k < |w'.log| ==> EventOk(cfg, w', file, k)
    ensures EventsOk(cfg, w', file)
  {
    forall k | 0 <= k < |w'.log| ensures EventOk(cfg, w', file, k) {
      if k < |w.log| { EventOkLater(cfg, w, w', file, k); }
    }
  }

  lemma EventsAfterPhase(cfg: Config, w: World, w': World, st: Step, file: string, e: Event)
    requires SignaturesOk(cfg, w) && EventsOk(cfg, w, file) && TicketsOk(w.service) && KeysOk(cfg, w.service.directory)
    requires Enabled(cfg, w, st) && w'.log == w.log + [e] && Advances(cfg, w, w', e)
    requires w.signed <= w'.signed && w'.service.directory == w.service.directory
    requires AcceptsNow(cfg, w, st, e) || ApprovesNow(cfg, w, st, e)
    ensures EventsOk(cfg, w', file)
  {
    NewEventOk(cfg, w, w', st, file, e);
    TicketsIssuedAfter(cfg, w, w', st, file, e);
    EventsAfter(cfg, w, w', file);
  }

  lemma TicketsIssuedStill(w: World, w': World, file: string)
    requires TicketsIssued(w, file) && w.log <= w'.log && w'.service.ticketFile == w.service.ticketFile
    ensures TicketsIssued(w', file)
  {
    var now := TicketFile.Contents(w.service.ticketFile);
    forall t | t in now ensures IssuedBefore(w'.log, file, t, now[t]) {
      IssuedLater(w.log, w'.log[|w.log|..], file, t, now[t]);
      assert w.log + w'.log[|w.log|..] == w'.log;
    }
  }

  lemma EventsKeptByMessage(cfg: Config, w: World, st: Step, file: string)
    requires st.Message? && SignaturesOk(cfg, w) && EventsOk(cfg, w, file)
    requires TicketsOk(w.service) && KeysOk(cfg, w.service.directory)
    ensures EventsOk(cfg, Next(cfg, w, st), file)
  {
    hide Next; hide Added; hide Advances; hide Enabled; hide EventOk; hide SignaturesOk; hide TicketsOk; hide KeysOk;
    KeysKept(cfg, w, st);
    SignaturesKept(cfg, w, st);
    MessageEffect(cfg, w, st);
    var added := Added(cfg, w, st);
    if added == [] {
      TicketsIssuedStill(w, Next(cfg, w, st), file);
      EventsAfter(cfg, w, Next(cfg, w, st), file);
    } else {
      assert added == [added[0]];
      EventsAfterPhase(cfg, w, Next(cfg, w, st), st, file, added[0]);
    }
  }

  lemma {:induction false} EventsKept(cfg: Config, w: World, st: Step, file: string)
    requires SignaturesOk(cfg, w) && EventsOk(cfg, w, file)
    requires TicketsOk(w.service) && KeysOk(cfg, w.service.directory)
    ensures EventsOk(cfg, Next(cfg, w, st), file)
  {
    if st.Message? {
      EventsKeptByMessage(cfg, w, st, file);
    } else {
      KeysKept(cfg, w, st);
      SignaturesKept(cfg, w, st);
      TicketsIssuedStill(w, Next(cfg, w, st), file);
      EventsAfter(cfg, w, Next(cfg, w, st), file);
    }
  }
}
