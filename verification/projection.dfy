/** One voter's own run: what happens to a voter in a run of the services happens in the
    same way when every step that is about somebody else is left out. */
module Projection {
  import opened Text
  import opened Messages
  import opened Freshness
  import opened Rounds
  import opened Roll
  import opened Protocol
  import opened Effects
  import opened Invariants
  import opened Provenance
  import opened Theorems
  import opened Deletion
  import TicketFile

  /** The timer entry of `v` is the one with this id. */
  predicate OwnTimer(r: Rounds, v: uint32, h: nat) { v in r.timers && r.timers[v].id == h }

  /** What is left of a step for voter `v`: a message only if it got `v` past a phase, a step of a
      timer only if it is that of `v`'s entry, under the id that the entry has in the projected run. */
  function Kept(cfg: Config, w: World, u: World, st: Step, v: uint32): seq<Step> {
    var r, r' := w.service.rounds, u.service.rounds;
    match st
    case Message(_, _, _, _, _, _) =>
      var added := Added(cfg, w, st);
      if added != [] && Concerns(added[0], v) then [st] else []
    case TimerExpires(h) => if OwnTimer(r, v, h) && v in r'.timers then [TimerExpires(r'.timers[v].id)] else []
    case HandlerRuns(h) => if OwnTimer(r, v, h) && v in r'.timers then [HandlerRuns(r'.timers[v].id)] else []
    case _ => [st]
  }

  /** The run of voter `v`. Clocks, handshakes, client signatures and the ID service are everybody's. */
  function Project(cfg: Config, start: World, steps: seq<Step>, v: uint32): seq<Step> {
    if steps == [] then [] else
      var before, last := steps[..|steps| - 1], steps[|steps| - 1];
      var own := Project(cfg, start, before, v);
      own + Kept(cfg, Exec(cfg, start, before), Exec(cfg, start, own), last, v)
  }

  // ----------------------------------------------------------------- what the two runs share

  /** The state of the handler that belongs to the timer entry of `v`. */
  ghost predicate SameEntry(r: Rounds, r': Rounds, v: uint32) {
    && (v in r.status <==> v in r'.status) && (v in r.status ==> r.status[v] == r'.status[v])
    && (v in r.timers <==> v in r'.timers)
    && (v in r.timers ==>
          && r.timers[v].expiry == r'.timers[v].expiry
          && r.timers[v].id in r.handlers && r'.timers[v].id in r'.handlers
          && r.handlers[r.timers[v].id] == r'.handlers[r'.timers[v].id])
  }

  /** Every ticket on file under `v` is on file with the same entry in the projected run. */
  ghost predicate TicketsCovered(file: TicketFile.Tickets, file': TicketFile.Tickets, v: uint32) {
    forall t :: t in file && file[t].voterId == v ==> t in file' && file'[t] == file[t]
  }

  /** The log of the projected run is about `v` alone. */
  ghost predicate OnlyAbout(log: seq<Event>, v: uint32) {
    forall e :: e in log ==> e.IdConfirmed? || Concerns(e, v)
  }

  ghost predicate SameForVoter(w: World, u: World, v: uint32) {
    && SameForAll(w, u)
    && SameEntry(w.service.rounds, u.service.rounds, v)
    && TicketsCovered(TicketFile.Contents(w.service.ticketFile), TicketFile.Contents(u.service.ticketFile), v)
    && History(w.log, v) == History(u.log, v) && OnlyAbout(u.log, v)
  }

  // ----------------------------------------------------------------- steps about somebody else

  /** Starting or redeeming another voter's round leaves the entry of `v` as it was. */
  lemma OtherRound(r: Rounds, r': Rounds, v: uint32, other: uint32, expiry: int)
    requires Valid(r) && v != other
    requires (HasStatus(r, other, Eligible) && r' == Begin(r, other, expiry)) || r' == Finish(r, other)
    ensures SameEntry(r, r', v)
  {
    assert EntryOk(r, v) && EntryOk(r, other);
  }

  /** A step of a timer that is not the entry's leaves the entry of `v` as it was. */
  lemma OtherTimer(r: Rounds, h: nat, now: int, v: uint32)
    requires Valid(r) && !OwnTimer(r, v, h)
    ensures SameEntry(r, Expire(r, h, now), v) && SameEntry(r, RunHandler(r, h), v)
    ensures Ends(r, h) ==> r.handlers[h].voterId != v
  {
    assert EntryOk(r, v);
    RunHandlerEffect(r, h);
    if h in r.handlers {
      assert HandlerOk(r, h) && EntryOk(r, r.handlers[h].voterId);
    }
  }

  lemma SameEntryTrans(r: Rounds, r': Rounds, q: Rounds, v: uint32)
    requires SameEntry(r, q, v) && SameEntry(r, r', v)
    ensures SameEntry(r', q, v)
  {}

  lemma OtherPhase(cfg: Config, w: World, w': World, u: World, st: Step, e: Event, v: uint32)
    requires SameForVoter(w, u, v) && SameForAll(w', u) && Valid(w.service.rounds) && TicketsOk(w.service)
    requires Enabled(cfg, w, st) && (AcceptsNow(cfg, w, st, e) || ApprovesNow(cfg, w, st, e))
    requires Advances(cfg, w, w', e) && w'.log == w.log + [e] && e.voterId != v
    ensures SameForVoter(w', u, v)
  {
    hide SameForAll; hide SameEntry; hide TicketsCovered; hide Valid; hide History; hide Enabled; hide TicketsOk;
    hide Validates; hide Confirms; hide Begin; hide Finish; hide OnlyAbout; hide Fresh; hide TicketFile.Contents;
    OtherRound(w.service.rounds, w'.service.rounds, v, e.voterId, w.clock.steady + cfg.timeout);
    SameEntryTrans(w.service.rounds, w'.service.rounds, u.service.rounds, v);
    HistoryAppend(w.log, e, v);
    if e.Accepted? {
      TicketsAfterIssue(cfg, w, w', st, e);
      StillCovered(TicketFile.Contents(w.service.ticketFile), TicketFile.Contents(u.service.ticketFile), e.ticket,
                   TicketFile.Entry(e.voterId, e.secret), v);
    }
  }

  lemma StillCovered(file: TicketFile.Tickets, file': TicketFile.Tickets, t: string, entry: TicketFile.Entry, v: uint32)
    requires TicketsCovered(file, file', v) && entry.voterId != v
    ensures TicketsCovered(file[t := entry], file', v)
  {}

  /** A message that is left out changes nothing that the projected run has. */
  lemma MessageLeftOut(cfg: Config, w: World, u: World, st: Step, v: uint32)
    requires SameForVoter(w, u, v) && VotersOk(cfg, w) && TicketsOk(w.service) && KeysOk(cfg, w.service.directory)
    requires st.Message? && Kept(cfg, w, u, st, v) == []
    ensures SameForVoter(Next(cfg, w, st), u, v)
  {
    hide Next; hide Added; hide SameEntry; hide TicketsCovered; hide Advances; hide AcceptsNow; hide ApprovesNow;
    MessageEffect(cfg, w, st);
    MessageFootprint(cfg, w, st);
    KeysKept(cfg, w, st);
    var added := Added(cfg, w, st);
    if added == [] {
      assert w.log + added == w.log;
    } else {
      assert added == [added[0]];
      PhaseConcerns(cfg, w, st, added[0]);
      OtherPhase(cfg, w, Next(cfg, w, st), u, st, added[0], v);
    }
  }

  lemma PhaseConcerns(cfg: Config, w: World, st: Step, e: Event)
    requires AcceptsNow(cfg, w, st, e) || ApprovesNow(cfg, w, st, e)
    ensures Concerns(e, e.voterId)
  {}

  // ------------------------------------------------------------------------- steps about the voter

  lemma SameIsReady(cfg: Config, w: World, u: World, st: Step, e: Event)
    requires SameForVoter(w, u, e.voterId) && TicketsOk(w.service)
    requires AcceptsNow(cfg, w, st, e) || ApprovesNow(cfg, w, st, e)
    ensures Ready(w, u, e)
  {
    RefreshedIsFile(w.service);
  }

  lemma SameRound(r: Rounds, q: Rounds, v: uint32, expiry: int)
    requires Valid(r) && Valid(q) && SameEntry(r, q, v)
    ensures SameEntry(Begin(r, v, expiry), Begin(q, v, expiry), v)
    ensures v in r.timers ==> SameEntry(Finish(r, v), Finish(q, v), v)
  {
    assert EntryOk(r, v) && EntryOk(q, v);
  }

  lemma SameRoundAfter(cfg: Config, w: World, w': World, u: World, u': World, e: Event)
    requires SameEntry(w.service.rounds, u.service.rounds, e.voterId) && w.clock == u.clock
    requires Valid(w.service.rounds) && Valid(u.service.rounds)
    requires Advances(cfg, w, w', e) && Advances(cfg, u, u', e)
    requires !e.Accepted? ==> e.voterId in w.service.rounds.timers
    ensures SameEntry(w'.service.rounds, u'.service.rounds, e.voterId)
  {
    hide Valid; hide SameEntry; hide Begin; hide Finish;
    SameRound(w.service.rounds, u.service.rounds, e.voterId, w.clock.steady + cfg.timeout);
  }

  lemma CoveredAfter(cfg: Config, w: World, w': World, u: World, u': World, st: Step, e: Event)
    requires TicketsCovered(TicketFile.Contents(w.service.ticketFile), TicketFile.Contents(u.service.ticketFile),
                            e.voterId)
    requires TicketsOk(w.service) && TicketsOk(u.service) && Enabled(cfg, w, st) && Enabled(cfg, u, st)
    requires Advances(cfg, w, w', e) && Advances(cfg, u, u', e)
    requires if e.Accepted? then AcceptsNow(cfg, w, st, e) && AcceptsNow(cfg, u, st, e) else true
    ensures TicketsCovered(TicketFile.Contents(w'.service.ticketFile), TicketFile.Contents(u'.service.ticketFile),
                           e.voterId)
  {
    hide AcceptsNow; hide TicketFile.Contents; hide Begin; hide Finish;
    if e.Accepted? {
      TicketsAfterIssue(cfg, w, w', st, e);
      TicketsAfterIssue(cfg, u, u', st, e);
    }
  }

  lemma LogsAfter(log: seq<Event>, log': seq<Event>, e: Event, v: uint32)
    requires History(log, v) == History(log', v) && OnlyAbout(log', v) && (e.IdConfirmed? || Concerns(e, v))
    ensures History(log + [e], v) == History(log' + [e], v) && OnlyAbout(log' + [e], v)
  {
    HistoryAppend(log, e, v);
    HistoryAppend(log', e, v);
  }

  lemma ReadyFacts(cfg: Config, w: World, u: World, st: Step, e: Event)
    requires SameForVoter(w, u, e.voterId) && TicketsOk(w.service) && TicketsOk(u.service)
    requires Enabled(cfg, w, st) && (AcceptsNow(cfg, w, st, e) || ApprovesNow(cfg, w, st, e))
    ensures Enabled(cfg, u, st) && Concerns(e, e.voterId)
    ensures if e.Accepted? then AcceptsNow(cfg, w, st, e) && AcceptsNow(cfg, u, st, e)
            else ApprovesNow(cfg, w, st, e) && ApprovesNow(cfg, u, st, e)
    ensures !e.Accepted? ==> e.voterId in w.service.rounds.timers
  {
    hide SameEntry; hide TicketsCovered; hide Validates; hide History; hide OnlyAbout; hide TicketsOk; hide Fresh;
    hide TicketFile.Contents; hide FindVoter;
    SameIsReady(cfg, w, u, st, e);
    SamePhase(cfg, w, u, st, e);
  }

  lemma ClientsAfter(cfg: Config, w: World, u: World, st: Step)
    requires st.Message? && SameForAll(w, u) && KeysOk(cfg, w.service.directory)
    requires Next(cfg, w, st).service.armed <= Next(cfg, u, st).service.armed
    ensures SameForAll(Next(cfg, w, st), Next(cfg, u, st))
  {
    hide Next; hide KeysOk;
    MessageFootprint(cfg, w, st);
    MessageFootprint(cfg, u, st);
    KeysKept(cfg, w, st);
    KeysKept(cfg, u, st);
  }

  /** A message that gets `v` past a phase does so in both runs. */
  lemma MessageKept(cfg: Config, w: World, u: World, st: Step, e: Event)
    requires SameForVoter(w, u, e.voterId) && Valid(w.service.rounds) && Valid(u.service.rounds)
    requires TicketsOk(w.service) && TicketsOk(u.service) && KeysOk(cfg, w.service.directory)
    requires st.Message? && Enabled(cfg, w, st) && (AcceptsNow(cfg, w, st, e) || ApprovesNow(cfg, w, st, e))
    ensures SameForVoter(Next(cfg, w, st), Next(cfg, u, st), e.voterId)
  {
    hide Next; hide SameEntry; hide TicketsCovered; hide Advances; hide History; hide OnlyAbout; hide Valid;
    hide Enabled;
    hide TicketsOk; hide KeysOk; hide AcceptsNow; hide ApprovesNow; hide Concerns;
    var w', u' := Next(cfg, w, st), Next(cfg, u, st);
    ReadyFacts(cfg, w, u, st, e);
    PhaseHappens(cfg, w, u, st, e);
    ClientsAfter(cfg, w, u, st);
    SameRoundAfter(cfg, w, w', u, u', e);
    CoveredAfter(cfg, w, w', u, u', st, e);
    LogsAfter(w.log, u.log, e, e.voterId);
  }

  // ---------------------------------------------------------------------------- timers and the rest

  lemma SameTimerStep(r: Rounds, q: Rounds, v: uint32, h: nat, now: int)
    requires Valid(r) && Valid(q) && SameEntry(r, q, v) && OwnTimer(r, v, h)
    ensures var h' := q.timers[v].id;
            && SameEntry(Expire(r, h, now), Expire(q, h', now), v)
            && SameEntry(RunHandler(r, h), RunHandler(q, h'), v)
            && (Ends(r, h) <==> Ends(q, h'))
            && (Ends(r, h) ==> r.handlers[h].voterId == v && q.handlers[h'].voterId == v)
  {
    assert EntryOk(r, v) && EntryOk(q, v);
    RunHandlerEffect(r, h);
    RunHandlerEffect(q, q.timers[v].id);
  }

  lemma OwnTimerStep(cfg: Config, w: World, u: World, st: Step, st': Step, v: uint32)
    requires SameForVoter(w, u, v) && Valid(w.service.rounds) && Valid(u.service.rounds)
    requires st.TimerExpires? || st.HandlerRuns?
    requires OwnTimer(w.service.rounds, v, st.handler)
    requires var h' := u.service.rounds.timers[v].id;
             st' == if st.TimerExpires? then TimerExpires(h') else HandlerRuns(h')
    ensures SameForVoter(Next(cfg, w, st), Next(cfg, u, st'), v)
  {
    hide SameEntry; hide TicketsCovered; hide Expire; hide RunHandler; hide History; hide Valid; hide OnlyAbout;
    hide TicketFile.Contents;
    SameTimerStep(w.service.rounds, u.service.rounds, v, st.handler, w.clock.steady);
    assert w.log + [] == w.log && u.log + [] == u.log;
    if Ends(w.service.rounds, st.handler) { LogsAfter(w.log, u.log, Reverted(v), v); }
  }

  lemma OtherTimerStep(cfg: Config, w: World, u: World, st: Step, v: uint32)
    requires SameForVoter(w, u, v) && Valid(w.service.rounds) && (st.TimerExpires? || st.HandlerRuns?)
    requires !OwnTimer(w.service.rounds, v, st.handler)
    ensures SameForVoter(Next(cfg, w, st), u, v)
  {
    hide SameEntry; hide TicketsCovered; hide Expire; hide RunHandler; hide History; hide Valid; hide OnlyAbout;
    hide TicketFile.Contents; hide OwnTimer;
    var r, h := w.service.rounds, st.handler;
    OtherTimer(r, h, w.clock.steady, v);
    SameEntryTrans(r, Expire(r, h, w.clock.steady), u.service.rounds, v);
    SameEntryTrans(r, RunHandler(r, h), u.service.rounds, v);
    assert w.log + [] == w.log;
    if Ends(r, h) { HistoryAppend(w.log, Reverted(r.handlers[h].voterId), v); }
  }

  lemma TimerStep(cfg: Config, w: World, u: World, st: Step, v: uint32)
    requires SameForVoter(w, u, v) && Valid(w.service.rounds) && Valid(u.service.rounds)
    requires st.TimerExpires? || st.HandlerRuns?
    ensures SameForVoter(Next(cfg, w, st), Exec(cfg, u, Kept(cfg, w, u, st, v)), v)
  {
    hide Next; hide SameEntry; hide TicketsCovered; hide Valid;
    var kept := Kept(cfg, w, u, st, v);
    EntryShared(w.service.rounds, u.service.rounds, v);
    if OwnTimer(w.service.rounds, v, st.handler) {
      assert kept == [] + [kept[0]];
      ExecOne(cfg, u, [], kept[0]);
      OwnTimerStep(cfg, w, u, st, kept[0], v);
    } else {
      OtherTimerStep(cfg, w, u, st, v);
    }
  }

  lemma EntryShared(r: Rounds, q: Rounds, v: uint32)
    requires SameEntry(r, q, v)
    ensures v in r.timers <==> v in q.timers
  {}

  lemma SharedStep(cfg: Config, w: World, u: World, st: Step, v: uint32)
    requires SameForVoter(w, u, v) && !st.Message? && !st.TimerExpires? && !st.HandlerRuns?
    ensures SameForVoter(Next(cfg, w, st), Next(cfg, u, st), v)
  {
    hide SameEntry; hide TicketsCovered; hide History; hide OnlyAbout; hide IdStep; hide ReceiveStep;
    if st.IdMessage? {
      IdMessageSame(cfg, w, u, st);
      var added := Added(cfg, w, st);
      if added == [] {
        assert w.log + added == w.log && u.log + added == u.log;
      } else {
        assert added == [added[0]];
        LogsAfter(w.log, u.log, added[0], v);
      }
    }
  }

  lemma StepProjects(cfg: Config, w: World, u: World, st: Step, v: uint32)
    requires SameForVoter(w, u, v) && VotersOk(cfg, w) && VotersOk(cfg, u)
    requires TicketsOk(w.service) && TicketsOk(u.service) && KeysOk(cfg, w.service.directory)
    ensures SameForVoter(Next(cfg, w, st), Exec(cfg, u, Kept(cfg, w, u, st, v)), v)
  {
    hide Next; hide SameForVoter; hide VoterOk; hide TicketsOk; hide KeysOk; hide Added;
    var kept := Kept(cfg, w, u, st, v);
    if st.TimerExpires? || st.HandlerRuns? {
      TimerStep(cfg, w, u, st, v);
    } else if kept == [] {
      MessageLeftOut(cfg, w, u, st, v);
    } else {
      assert kept == [] + [st];
      ExecOne(cfg, u, [], st);
      if st.Message? {
        MessageEffect(cfg, w, st);
        MessageKept(cfg, w, u, st, Added(cfg, w, st)[0]);
      } else {
        SharedStep(cfg, w, u, st, v);
      }
    }
  }

  // --------------------------------------------------------------------------------- whole runs

  lemma {:induction false} RunProjects(cfg: Config, start: World, steps: seq<Step>, v: uint32)
    requires Initial(cfg, start)
    ensures SameForVoter(Exec(cfg, start, steps), Exec(cfg, start, Project(cfg, start, steps, v)), v)
  {
    hide Next; hide SameForVoter; hide VotersOk; hide EventsOk; hide SignaturesOk; hide TicketsOk; hide KeysOk;
    hide Kept;
    if steps == [] {
      InvStart(cfg, start);
      SameAtStart(cfg, start, v);
    } else {
      var before, last := steps[..|steps| - 1], steps[|steps| - 1];
      var own := Project(cfg, start, before, v);
      var w, u := Exec(cfg, start, before), Exec(cfg, start, own);
      RunProjects(cfg, start, before, v);
      InvAlways(cfg, start, before);
      InvAlways(cfg, start, own);
      StepProjects(cfg, w, u, last, v);
      ExecAppend(cfg, start, own, Kept(cfg, w, u, last, v));
    }
  }

  lemma SameAtStart(cfg: Config, start: World, v: uint32)
    requires Initial(cfg, start)
    ensures SameForVoter(start, start, v)
  {}

  /** Nothing ever happens to anybody else in the projected run. */
  lemma OthersUntouched(cfg: Config, start: World, u: World, v: uint32, other: uint32)
    requires VotersOk(cfg, u) && OnlyAbout(u.log, v) && other != v
    ensures !HasStatus(u.service.rounds, other, Pending) && !HasStatus(u.service.rounds, other, CheckedIn)
    ensures other !in u.service.rounds.timers
  {
    assert VoterOk(cfg, u, other);
    NoHistory(u.log, v, other);
    assert EntryOk(u.service.rounds, other);
  }

  lemma {:induction false} NoHistory(log: seq<Event>, v: uint32, other: uint32)
    requires OnlyAbout(log, v) && other != v
    ensures History(log, other) == []
  {
    if log == [] {
    } else {
      assert forall e :: e in log[..|log| - 1] ==> e in log;
      assert log[|log| - 1] in log;
      NoHistory(log[..|log| - 1], v, other);
    }
  }

  /** The steps of one voter determine the voter's state: the run of `v` alone leaves `v` with the
      same status, the same expiry and the same state of the timeout handler, the same tickets on file
      and the same history as the full run, and it leaves every other voter alone. So nothing that
      other voters do, accepted or not, can consume or extend a voter's round. */
  lemma {:induction false} OwnStepsDetermine(
      cfg: Config, start: World, steps: seq<Step>, v: uint32, other: uint32)
    requires Initial(cfg, start)
    ensures var w, u := Exec(cfg, start, steps), Exec(cfg, start, Project(cfg, start, steps, v));
            && SameEntry(w.service.rounds, u.service.rounds, v) && History(w.log, v) == History(u.log, v)
            && TicketsCovered(TicketFile.Contents(w.service.ticketFile), TicketFile.Contents(u.service.ticketFile), v)
            && w.clock == u.clock && w.service.directory == u.service.directory
            && (other != v ==>
                  && !HasStatus(u.service.rounds, other, Pending) && !HasStatus(u.service.rounds, other, CheckedIn)
                  && other !in u.service.rounds.timers && History(u.log, other) == [])
  {
    hide Exec; hide SameEntry; hide TicketsCovered; hide History; hide EventsOk; hide SignaturesOk;
    RunProjects(cfg, start, steps, v);
    var u := Exec(cfg, start, Project(cfg, start, steps, v));
    InvAlways(cfg, start, Project(cfg, start, steps, v));
    if other != v {
      OthersUntouched(cfg, start, u, v, other);
      NoHistory(u.log, v, other);
    }
  }
}
