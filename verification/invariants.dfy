/** What every step of every run keeps. */
module Invariants {
  import opened Text
  import opened Messages
  import opened Freshness
  import opened Rounds
  import opened Roll
  import opened Protocol
  import opened Effects
  import TicketFile

  // --------------------------------------------------------------------- clients and keys

  /** Verifiers and public keys agree, and every recorded client has a key and the type its id calls for. */
  ghost predicate KeysOk(cfg: Config, d: Directory) {
    && d.publicKeys == d.verifiers
    && (forall c :: c in d.clients ==> c in d.verifiers && d.clients[c] == TypeOf(cfg, c))
  }

  /** No key and no client type is ever changed or forgotten. */
  ghost predicate Extends(d: Directory, d': Directory) {
    && (forall c :: c in d.verifiers ==> c in d'.verifiers && d'.verifiers[c] == d.verifiers[c])
    && (forall c :: c in d.clients ==> c in d'.clients && d'.clients[c] == d.clients[c])
  }

  /** The sender of a message that is dispatched has a verifier. */
  lemma {:induction false} SenderHasKey(cfg: Config, w: World, ep: Endpoint)
    requires KeysOk(cfg, w.service.directory)
    ensures var d := w.service.directory;
            ep in d.clientIds && d.clientIds[ep] in d.clients ==>
              d.clientIds[ep] in d.verifiers && EnsureKey(cfg, d, d.clientIds[ep]) == d
  {}

  lemma KeysKeptByMessage(cfg: Config, w: World, st: Step)
    requires st.Message? && KeysOk(cfg, w.service.directory)
    ensures Next(cfg, w, st).service.directory == w.service.directory
  {
    hide Next; hide EnsureKey; hide KeysOk;
    MessageDirectory(cfg, w, st);
    SenderHasKey(cfg, w, st.endpoint);
  }

  lemma KeysKeptByHandshake(cfg: Config, d: Directory, ep: Endpoint, cert: Certificate)
    requires KeysOk(cfg, d)
    ensures KeysOk(cfg, Admit(cfg, d, ep, cert)) && Extends(d, Admit(cfg, d, ep, cert))
  {}

  /** Pinning: a handshake never changes a recorded key, and the lazy load of a key
      for the sender of a message is never needed. */
  lemma KeysKept(cfg: Config, w: World, st: Step)
    requires KeysOk(cfg, w.service.directory)
    ensures var d, d' := w.service.directory, Next(cfg, w, st).service.directory;
            KeysOk(cfg, d') && Extends(d, d') && (!st.Handshake? ==> d' == d)
  {
    hide KeysOk; hide Admit; hide ReceiveStep; hide IdConfirms; hide IdPlausible;
    if st.Message? {
      KeysKeptByMessage(cfg, w, st);
    } else if st.Handshake? {
      KeysKeptByHandshake(cfg, w.service.directory, st.endpoint, st.certificate);
    }
  }

  // ------------------------------------------------------------------------------ tickets

  ghost predicate Within(m: TicketFile.Tickets, n: TicketFile.Tickets) {
    forall t :: t in m ==> t in n && n[t] == m[t]
  }

  /** Everything in memory is what the ticket file says. */
  ghost predicate TicketsOk(s: Service) {
    Terminated(s.ticketFile) && Within(s.tickets, TicketFile.Contents(s.ticketFile))
  }

  /** Reading the file makes the map in memory equal to the last-wins contents of the file. */
  lemma RefreshedIsFile(s: Service)
    requires TicketsOk(s)
    ensures Refreshed(s) == TicketFile.Contents(s.ticketFile)
  {}

  lemma TicketsAfterIssue(cfg: Config, w: World, w': World, st: Step, e: Event)
    requires TicketsOk(w.service) && Enabled(cfg, w, st) && AcceptsNow(cfg, w, st, e) && Advances(cfg, w, w', e)
    ensures TicketsOk(w'.service)
    ensures TicketFile.Contents(w'.service.ticketFile)
         == TicketFile.Contents(w.service.ticketFile)[e.ticket := TicketFile.Entry(e.voterId, e.secret)]
  {
    TicketFile.ContentsAppend(w.service.ticketFile, e.ticket, e.voterId, e.secret);
  }

  lemma TicketsKept(cfg: Config, w: World, st: Step)
    requires TicketsOk(w.service)
    ensures TicketsOk(Next(cfg, w, st).service)
  {
    if st.Message? {
      MessageEffect(cfg, w, st);
      RefreshedIsFile(w.service);
      var added := Added(cfg, w, st);
      if added != [] && added[0].Accepted? {
        TicketsAfterIssue(cfg, w, Next(cfg, w, st), st, added[0]);
      }
    }
  }

  // -------------------------------------------------------------------- histories of voters

  predicate Concerns(e: Event, v: uint32) { !e.IdConfirmed? && e.voterId == v }

  /** The part of the log that is about one voter. */
  function History(log: seq<Event>, v: uint32): seq<Event> {
    if log == [] then [] else
      var h := History(log[..|log| - 1], v);
      if Concerns(log[|log| - 1], v) then h + [log[|log| - 1]] else h
  }

  lemma HistoryAppend(log: seq<Event>, e: Event, v: uint32)
    ensures History(log + [e], v) == if Concerns(e, v) then History(log, v) + [e] else History(log, v)
  {
    assert (log + [e])[..|log|] == log;
  }

  /** The status that a voter's history leads to. */
  function StatusAfter(h: seq<Event>): VoterStatus {
    if h == [] then Eligible else
      match h[|h| - 1]
      case Accepted(_, _, _, _, _, _) => Pending
      case Approved(_, _, _, _, _) => CheckedIn
      case _ => Eligible
  }

  /** An acceptance starts from ELIGIBLE, an approval and a revert from PENDING. */
  predicate Legal(h: seq<Event>) {
    h == [] ||
    (var before := h[..|h| - 1];
     Legal(before) && StatusAfter(before) == if h[|h| - 1].Accepted? then Eligible else Pending)
  }

  /** The state of one voter agrees with the voter's history. */
  ghost predicate VoterOk(cfg: Config, w: World, v: uint32) {
    var h := History(w.log, v);
    && Legal(h)
    && (if v in w.service.rounds.status then w.service.rounds.status[v] == StatusAfter(h) else h == [])
    && (v in w.service.rounds.timers ==>
          h != [] && h[|h| - 1].Accepted? &&
          w.service.rounds.timers[v].expiry == h[|h| - 1].at.steady + cfg.timeout)
  }

  ghost predicate VotersOk(cfg: Config, w: World) {
    Valid(w.service.rounds) && forall v: uint32 :: VoterOk(cfg, w, v)
  }

  lemma LegalStep(h: seq<Event>, e: Event)
    requires Legal(h) && StatusAfter(h) == if e.Accepted? then Eligible else Pending
    ensures Legal(h + [e])
    ensures StatusAfter(h + [e]) == if e.Accepted? then Pending else if e.Approved? then CheckedIn else Eligible
  {
    assert (h + [e])[..|h|] == h;
  }

  /** One event moves one voter and leaves the others. */
  lemma VotersAfterEvent(cfg: Config, w: World, w': World, e: Event)
    requires VotersOk(cfg, w) && Valid(w'.service.rounds) && !e.IdConfirmed? && w'.log == w.log + [e]
    requires HasStatus(w.service.rounds, e.voterId, if e.Accepted? then Eligible else Pending)
    requires w'.service.rounds.status == w.service.rounds.status[e.voterId := StatusAfter([e])]
    requires w'.service.rounds.timers - {e.voterId} == w.service.rounds.timers - {e.voterId}
    requires e.voterId in w'.service.rounds.timers ==>
               e.Accepted? && w'.service.rounds.timers[e.voterId].expiry == e.at.steady + cfg.timeout
    ensures VotersOk(cfg, w')
  {
    var r, r' := w.service.rounds, w'.service.rounds;
    forall v: uint32 ensures VoterOk(cfg, w', v) {
      assert VoterOk(cfg, w, v);
      HistoryAppend(w.log, e, v);
      if v == e.voterId {
        LegalStep(History(w.log, v), e);
      } else {
        assert v in r'.timers ==> v in r'.timers - {e.voterId} && r'.timers[v] == (r'.timers - {e.voterId})[v];
      }
    }
  }

  lemma RoundsAfterPhase(cfg: Config, w: World, w': World, st: Step, e: Event)
    requires Valid(w.service.rounds) && Advances(cfg, w, w', e)
    requires AcceptsNow(cfg, w, st, e) || ApprovesNow(cfg, w, st, e)
    ensures var r, r' := w.service.rounds, w'.service.rounds;
            && Valid(r') && r'.timers - {e.voterId} == r.timers - {e.voterId}
            && HasStatus(r, e.voterId, if e.Accepted? then Eligible else Pending)
            && r'.status == r.status[e.voterId := StatusAfter([e])]
            && (e.voterId in r'.timers ==>
                  e.Accepted? && r'.timers[e.voterId].expiry == e.at.steady + cfg.timeout)
  {
    hide Validates; hide Refreshed; hide Fresh; hide FindVoter; hide SentBy; hide PinnedAfter; hide Valid; hide Dropped;
    if e.Accepted? {
      BeginKeepsValid(w.service.rounds, e.voterId, w.clock.steady + cfg.timeout);
    } else {
      FinishKeepsValid(w.service.rounds, e.voterId);
    }
  }

  lemma VotersAfterPhase(cfg: Config, w: World, w': World, st: Step, e: Event)
    requires VotersOk(cfg, w) && w'.log == w.log + [e] && Advances(cfg, w, w', e)
    requires AcceptsNow(cfg, w, st, e) || ApprovesNow(cfg, w, st, e)
    ensures VotersOk(cfg, w')
  {
    hide Advances; hide VoterOk; hide Valid; hide Validates; hide Refreshed; hide Confirms; hide StatusAfter;
    RoundsAfterPhase(cfg, w, w', st, e);
    VotersAfterEvent(cfg, w, w', e);
  }

  lemma VotersUntouched(cfg: Config, w: World, w': World)
    requires VotersOk(cfg, w) && w'.log == w.log && Valid(w'.service.rounds)
    requires w'.service.rounds.status == w.service.rounds.status && w'.service.rounds.timers == w.service.rounds.timers
    ensures VotersOk(cfg, w')
  {
    forall v: uint32 ensures VoterOk(cfg, w', v) { assert VoterOk(cfg, w, v); }
  }

  lemma VotersKeptByMessage(cfg: Config, w: World, st: Step)
    requires st.Message? && VotersOk(cfg, w)
    ensures VotersOk(cfg, Next(cfg, w, st))
  {
    hide Next; hide Added; hide Advances; hide VoterOk;
    var added := Added(cfg, w, st);
    MessageEffect(cfg, w, st);
    if added == [] {
      VotersUntouched(cfg, w, Next(cfg, w, st));
    } else {
      assert added == [added[0]];
      VotersAfterPhase(cfg, w, Next(cfg, w, st), st, added[0]);
    }
  }

  lemma VotersKeptByHandler(cfg: Config, w: World, h: nat)
    requires VotersOk(cfg, w)
    ensures VotersOk(cfg, Next(cfg, w, HandlerRuns(h)))
  {
    var w' := Next(cfg, w, HandlerRuns(h));
    RunHandlerEffect(w.service.rounds, h);
    if Ends(w.service.rounds, h) {
      VotersAfterEvent(cfg, w, w', Reverted(w.service.rounds.handlers[h].voterId));
    } else {
      VotersUntouched(cfg, w, w');
    }
  }

  lemma VotersKeptByIdMessage(cfg: Config, w: World, st: Step)
    requires st.IdMessage? && VotersOk(cfg, w)
    ensures VotersOk(cfg, Next(cfg, w, st))
  {
    hide IdPlausible; hide IdConfirms; hide MatchId;
    var w' := Next(cfg, w, st);
    if w'.log == w.log {
      VotersUntouched(cfg, w, w');
    } else {
      forall v: uint32 ensures VoterOk(cfg, w', v) {
        assert VoterOk(cfg, w, v);
        HistoryAppend(w.log, IdConfirmed(st.request, MatchId(st.request.body.idData, st.beyond)), v);
      }
    }
  }

  lemma VotersKept(cfg: Config, w: World, st: Step)
    requires VotersOk(cfg, w)
    ensures VotersOk(cfg, Next(cfg, w, st))
  {
    var w' := Next(cfg, w, st);
    match st
    case Message(_, _, _, _, _, _) => VotersKeptByMessage(cfg, w, st);
    case HandlerRuns(h) => VotersKeptByHandler(cfg, w, h);
    case IdMessage(_, _, _) => VotersKeptByIdMessage(cfg, w, st);
    case TimerExpires(h) =>
      ExpireKeepsValid(w.service.rounds, h, w.clock.steady);
      VotersUntouched(cfg, w, w');
    case _ => VotersUntouched(cfg, w, w');
  }
}
