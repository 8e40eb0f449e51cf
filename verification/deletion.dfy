/** Rejected messages leave no trace: a run and the same run without its rejected
    messages end in the same rounds, ticket file and log. */
module Deletion {
  import opened Text
  import opened Messages
  import opened Rounds
  import opened Roll
  import opened Protocol
  import opened Effects
  import opened Invariants
  import opened Provenance
  import opened Theorems
  import TicketFile

  /** Clients, keys, clocks and client signatures are the same; the second world has armed reads that
      the first has not, and replies may differ. */
  ghost predicate SameForAll(w: World, u: World) {
    && w.service.directory == u.service.directory && w.service.armed <= u.service.armed
    && w.idService == u.idService && w.clock == u.clock
    && (forall x: Signed :: !IsReply(x.body) ==> (x in w.signed <==> x in u.signed))
  }

  /** The two worlds differ at most in replies that were signed, in tickets not yet read back
      from the file, and in connections that a rejected message left without a read. */
  ghost predicate Similar(w: World, u: World) {
    && SameForAll(w, u)
    && w.service.rounds == u.service.rounds && w.service.ticketFile == u.service.ticketFile && w.log == u.log
  }

  /** The run without the messages that it rejected. */
  function Effective(cfg: Config, w: World, steps: seq<Step>): seq<Step> {
    if steps == [] then [] else
      var before, last := steps[..|steps| - 1], steps[|steps| - 1];
      if Rejected(cfg, Exec(cfg, w, before), last) then Effective(cfg, w, before)
      else Effective(cfg, w, before) + [last]
  }

  lemma RejectedIsSimilar(cfg: Config, w: World, u: World, st: Step)
    requires Similar(w, u) && KeysOk(cfg, w.service.directory) && Rejected(cfg, w, st)
    ensures Similar(Next(cfg, w, st), u)
  {
    hide Next;
    MessageEffect(cfg, w, st);
    MessageFootprint(cfg, w, st);
    KeysKept(cfg, w, st);
  }

  /** The rounds and the ticket file of `u` do not stand in the way of an event. */
  ghost predicate Ready(w: World, u: World, e: Event) {
    if e.Accepted? then HasStatus(u.service.rounds, e.voterId, Eligible)
    else
      && e.Approved?
      && e.voterId in w.service.rounds.timers && e.voterId in u.service.rounds.timers
      && w.service.rounds.timers[e.voterId].expiry == u.service.rounds.timers[e.voterId].expiry
      && var file := TicketFile.Contents(u.service.ticketFile);
      e.redeemed.body.ticket in file && file[e.redeemed.body.ticket] == TicketFile.Entry(e.voterId, e.secret)
  }

  /** What one world accepts or approves, another with the same clients does too if it is ready. */
  lemma SamePhase(cfg: Config, w: World, u: World, st: Step, e: Event)
    requires SameForAll(w, u) && Ready(w, u, e) && TicketsOk(w.service) && TicketsOk(u.service)
    requires AcceptsNow(cfg, w, st, e) || ApprovesNow(cfg, w, st, e)
    ensures if e.Accepted? then AcceptsNow(cfg, u, st, e) else ApprovesNow(cfg, u, st, e)
  {
    if e.Approved? {
      RefreshedIsFile(w.service);
      RefreshedIsFile(u.service);
      assert Signed(e.key, TicketRequestBody(e.redeemed.body), e.redeemed.signature) in u.signed;
    } else {
      var id := e.request.body.verified;
      assert Signed(cfg.idKey, StatementBody(id.presented, id.voterId), id.signature) in u.signed;
      assert Signed(e.key, CheckinRequestBody(e.request.body), e.request.signature) in u.signed;
    }
  }

  lemma SimilarIsReady(cfg: Config, w: World, u: World, st: Step, e: Event)
    requires Similar(w, u) && TicketsOk(w.service) && (AcceptsNow(cfg, w, st, e) || ApprovesNow(cfg, w, st, e))
    ensures Ready(w, u, e)
  {
    RefreshedIsFile(w.service);
  }

  lemma AdvanceIsSimilar(cfg: Config, w: World, w': World, u: World, u': World, e: Event)
    requires Similar(w, u) && Advances(cfg, w, w', e) && Advances(cfg, u, u', e) && SameForAll(w', u')
    requires w'.log == w.log + [e] && u'.log == u.log + [e]
    ensures Similar(w', u')
  {}

  lemma PhaseIsSimilar(cfg: Config, w: World, u: World, st: Step, e: Event)
    requires Similar(w, u) && TicketsOk(w.service) && TicketsOk(u.service) && KeysOk(cfg, w.service.directory)
    requires st.Message? && Enabled(cfg, w, st) && (AcceptsNow(cfg, w, st, e) || ApprovesNow(cfg, w, st, e))
    ensures Similar(Next(cfg, w, st), Next(cfg, u, st))
  {
    MessageFootprint(cfg, w, st);
    MessageFootprint(cfg, u, st);
    KeysKept(cfg, w, st);
    KeysKept(cfg, u, st);
    SimilarIsReady(cfg, w, u, st, e);
    SamePhase(cfg, w, u, st, e);
    PhaseHappens(cfg, w, u, st, e);
    AdvanceIsSimilar(cfg, w, Next(cfg, w, st), u, Next(cfg, u, st), e);
  }

  lemma PhaseHappens(cfg: Config, w: World, u: World, st: Step, e: Event)
    requires st.Message? && Enabled(cfg, w, st) && w.service.armed <= u.service.armed
    requires (AcceptsNow(cfg, w, st, e) && AcceptsNow(cfg, u, st, e))
          || (ApprovesNow(cfg, w, st, e) && ApprovesNow(cfg, u, st, e))
    ensures Next(cfg, w, st).log == w.log + [e] && Advances(cfg, w, Next(cfg, w, st), e)
    ensures Next(cfg, u, st).log == u.log + [e] && Advances(cfg, u, Next(cfg, u, st), e)
    ensures Next(cfg, w, st).service.armed <= Next(cfg, u, st).service.armed
  {
    if e.Accepted? {
      AcceptanceHappens(cfg, w, st, e);
      AcceptanceHappens(cfg, u, st, e);
    } else {
      ApprovalHappens(cfg, w, st, e);
      ApprovalHappens(cfg, u, st, e);
    }
  }

  /** The ID service does the same in both worlds. */
  lemma IdMessageSame(cfg: Config, w: World, u: World, st: Step)
    requires SameForAll(w, u) && st.IdMessage?
    ensures var w', u' := Next(cfg, w, st), Next(cfg, u, st);
            && SameForAll(w', u') && w'.service == w.service && u'.service == u.service
            && Added(cfg, w, st) == Added(cfg, u, st)
            && w'.log == w.log + Added(cfg, w, st) && u'.log == u.log + Added(cfg, w, st)
            && (Added(cfg, w, st) == [] || (|Added(cfg, w, st)| == 1 && Added(cfg, w, st)[0].IdConfirmed?))
  {
    hide IdPlausible; hide MatchId; hide NamesMatch;
    assert forall k, b, s :: !IsReply(b) ==> (Signed(k, b, s) in w.signed <==> Signed(k, b, s) in u.signed);
  }

  lemma OtherIsSimilar(cfg: Config, w: World, u: World, st: Step)
    requires Similar(w, u) && !st.Message?
    ensures Similar(Next(cfg, w, st), Next(cfg, u, st))
  {
    hide IdStep; hide ReceiveStep; hide RunHandler; hide Expire; hide Ends;
    if st.IdMessage? { IdMessageSame(cfg, w, u, st); }
  }

  /** Deleting every rejected message from a run changes neither the rounds (statuses, timers and
      handlers) nor the ticket file nor the log of what happened. */
  lemma {:induction false} RejectedMessagesLeaveNoTrace(cfg: Config, start: World, steps: seq<Step>)
    requires Initial(cfg, start)
    ensures var w, u := Exec(cfg, start, steps), Exec(cfg, start, Effective(cfg, start, steps));
            && Similar(w, u)
            && w.service.rounds == u.service.rounds && w.service.ticketFile == u.service.ticketFile && w.log == u.log
  {
    hide Next; hide Added; hide Enabled; hide VotersOk; hide EventsOk; hide SignaturesOk; hide TicketsOk; hide KeysOk;
    if steps == [] {
    } else {
      var before, last := steps[..|steps| - 1], steps[|steps| - 1];
      var kept := Effective(cfg, start, before);
      RejectedMessagesLeaveNoTrace(cfg, start, before);
      InvAlways(cfg, start, before);
      InvAlways(cfg, start, kept);
      var w, u := Exec(cfg, start, before), Exec(cfg, start, kept);
      if Rejected(cfg, w, last) {
        RejectedIsSimilar(cfg, w, u, last);
      } else {
        assert (kept + [last])[..|kept|] == kept && (kept + [last])[|kept|] == last;
        if last.Message? {
          MessageEffect(cfg, w, last);
          PhaseIsSimilar(cfg, w, u, last, Added(cfg, w, last)[0]);
        } else {
          OtherIsSimilar(cfg, w, u, last);
        }
      }
    }
  }
}
