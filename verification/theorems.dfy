/** The main results about whole runs of the services. */
module Theorems {
  import opened Text
  import opened Messages
  import opened Freshness
  import opened Rounds
  import opened Roll
  import opened Protocol
  import opened Effects
  import opened Invariants
  import opened Provenance
  import opened Timing
  import TicketFile

  /** Everything that holds in each world of a run that began in `start`. */
  ghost predicate Inv(cfg: Config, start: World, w: World) {
    && KeysOk(cfg, w.service.directory) && Extends(start.service.directory, w.service.directory)
    && TicketsOk(w.service) && VotersOk(cfg, w)
    && SignaturesOk(cfg, w) && EventsOk(cfg, w, start.service.ticketFile)
    && TimeOk(cfg, w) && WindowsOk(cfg, w.log)
  }

  lemma InvStart(cfg: Config, w: World)
    requires Initial(cfg, w)
    ensures Inv(cfg, w, w)
  {
    assert Valid(w.service.rounds) by {
      forall v: uint32 ensures EntryOk(w.service.rounds, v) {}
    }
    forall v: uint32 ensures VoterOk(cfg, w, v) {}
  }

  lemma {:induction false} InvNext(cfg: Config, start: World, w: World, st: Step)
    requires Inv(cfg, start, w)
    ensures Inv(cfg, start, Next(cfg, w, st))
  {
    KeysKept(cfg, w, st);
    TicketsKept(cfg, w, st);
    VotersKept(cfg, w, st);
    SignaturesKept(cfg, w, st);
    EventsKept(cfg, w, st, start.service.ticketFile);
    TimeKept(cfg, w, st);
    WindowsKept(cfg, w, st);
  }

  lemma {:induction false} InvExec(cfg: Config, start: World, w: World, steps: seq<Step>)
    requires Inv(cfg, start, w)
    ensures Inv(cfg, start, Exec(cfg, w, steps))
  {
    if steps == [] {
    } else {
      InvExec(cfg, start, w, steps[..|steps| - 1]);
      InvNext(cfg, start, Exec(cfg, w, steps[..|steps| - 1]), steps[|steps| - 1]);
    }
  }

  lemma {:induction false} InvAlways(cfg: Config, start: World, steps: seq<Step>)
    requires Initial(cfg, start)
    ensures Inv(cfg, start, Exec(cfg, start, steps))
  {
    InvStart(cfg, start);
    InvExec(cfg, start, start, steps);
  }

  lemma ExecOne(cfg: Config, w: World, steps: seq<Step>, st: Step)
    ensures Exec(cfg, w, steps + [st]) == Next(cfg, Exec(cfg, w, steps), st)
  {
    assert (steps + [st])[..|steps|] == steps;
  }

  lemma {:induction false} ExecAppend(cfg: Config, w: World, a: seq<Step>, b: seq<Step>)
    ensures Exec(cfg, w, a + b) == Exec(cfg, Exec(cfg, w, a), b)
  {
    if b == [] {
      assert a + b == a;
    } else {
      ExecAppend(cfg, w, a, b[..|b| - 1]);
      assert (a + b)[..|a + b| - 1] == a + b[..|b| - 1];
    }
  }

  // ------------------------------------------------------------------- timers and timeouts

  /** In every reachable world a voter has a timer exactly while pending, and then exactly one
      handler that was not aborted, which is that timer's and expires with it; a live handler of a
      voter who is not pending had fired before the voter was checked in. */
  lemma {:induction false} PendingHasOneTimeout(cfg: Config, start: World, steps: seq<Step>, v: uint32, h: nat)
    requires Initial(cfg, start)
    ensures var r := Exec(cfg, start, steps).service.rounds;
            && (v in r.timers <==> HasStatus(r, v, Pending))
            && (v in r.timers ==>
                  && ((Live(r, h) && r.handlers[h].voterId == v) <==> h == r.timers[v].id)
                  && r.timers[v].id in r.handlers && r.handlers[r.timers[v].id].expiry == r.timers[v].expiry)
            && (v !in r.timers && Live(r, h) && r.handlers[h].voterId == v ==>
                  HasStatus(r, v, CheckedIn) && r.handlers[h].state.Fired?)
  {
    InvAlways(cfg, start, steps);
    var r := Exec(cfg, start, steps).service.rounds;
    OneLiveHandler(r, v, h);
    assert EntryOk(r, v);
  }

  /** A handler that runs in a reachable world either ends the round it was started for, whose
      timer had expired, or it changes neither statuses nor timers. */
  lemma {:induction false} NoStaleTimeout(cfg: Config, start: World, steps: seq<Step>, h: nat)
    requires Initial(cfg, start)
    ensures var w := Exec(cfg, start, steps);
            var r, r' := w.service.rounds, Next(cfg, w, HandlerRuns(h)).service.rounds;
            if Ends(r, h)
            then var v := r.handlers[h].voterId;
                 && HasStatus(r, v, Pending) && r'.status == r.status[v := Eligible]
                 && r.timers[v].expiry <= w.clock.steady && r'.timers == r.timers - {v}
            else r'.status == r.status && r'.timers == r.timers
  {
    hide Exec; hide VoterOk; hide EventsOk; hide SignaturesOk;
    InvAlways(cfg, start, steps);
    var r := Exec(cfg, start, steps).service.rounds;
    RunHandlerEffect(r, h);
    if h in r.handlers { assert EntryOk(r, r.handlers[h].voterId); }
  }

  // ------------------------------------------------------- one approval, and conservation

  function CountAccepted(h: seq<Event>): nat {
    if h == [] then 0 else CountAccepted(h[..|h| - 1]) + if h[|h| - 1].Accepted? then 1 else 0
  }

  function CountApproved(h: seq<Event>): nat {
    if h == [] then 0 else CountApproved(h[..|h| - 1]) + if h[|h| - 1].Approved? then 1 else 0
  }

  function CountReverted(h: seq<Event>): nat {
    if h == [] then 0 else CountReverted(h[..|h| - 1]) + if h[|h| - 1].Reverted? then 1 else 0
  }

  lemma {:induction false} LegalCounts(h: seq<Event>)
    requires Legal(h) && forall e :: e in h ==> !e.IdConfirmed?
    ensures CountAccepted(h) == CountReverted(h) + if StatusAfter(h) == Eligible then 0 else 1
    ensures CountApproved(h) == if StatusAfter(h) == CheckedIn then 1 else 0
  {
    if h == [] {
    } else {
      var before := h[..|h| - 1];
      assert h[|h| - 1] in h;
      LegalCounts(before);
    }
  }

  lemma {:induction false} HistoryConcerns(log: seq<Event>, v: uint32)
    ensures forall e :: e in History(log, v) ==> Concerns(e, v)
  {
    if log == [] {
    } else {
      HistoryConcerns(log[..|log| - 1], v);
    }
  }

  /** Every voter is approved at most once in a run, exactly when checked in, and acceptances are
      the reverts plus one for a round that is open or was confirmed. */
  lemma {:induction false} Conservation(cfg: Config, start: World, steps: seq<Step>, v: uint32)
    requires Initial(cfg, start)
    ensures var w := Exec(cfg, start, steps); var h := History(w.log, v); var r := w.service.rounds;
            && CountApproved(h) == (if HasStatus(r, v, CheckedIn) then 1 else 0)
            && CountAccepted(h) == CountReverted(h) +
                 (if HasStatus(r, v, Pending) || HasStatus(r, v, CheckedIn) then 1 else 0)
  {
    InvAlways(cfg, start, steps);
    var w := Exec(cfg, start, steps);
    assert VoterOk(cfg, w, v);
    HistoryConcerns(w.log, v);
    LegalCounts(History(w.log, v));
  }

  /** CHECKED_IN is never left. */
  lemma {:induction false} CheckedInForever(cfg: Config, start: World, steps: seq<Step>, more: seq<Step>, v: uint32)
    requires Initial(cfg, start) && HasStatus(Exec(cfg, start, steps).service.rounds, v, CheckedIn)
    ensures HasStatus(Exec(cfg, start, steps + more).service.rounds, v, CheckedIn)
  {
    hide Next; hide TicketsOk; hide KeysOk; hide EventsOk; hide SignaturesOk; hide TimeOk; hide VotersOk;
    hide WindowsOk;
    if more == [] {
      assert steps + more == steps;
    } else {
      var some, st := more[..|more| - 1], more[|more| - 1];
      CheckedInForever(cfg, start, steps, some, v);
      assert (steps + more)[..|steps + more| - 1] == steps + some;
      var w := Exec(cfg, start, steps + some);
      InvAlways(cfg, start, steps + some);
      CheckedInKept(cfg, w, st, v);
    }
  }

  lemma CheckedInAfterPhase(cfg: Config, w: World, w': World, e: Event, v: uint32)
    requires HasStatus(w.service.rounds, v, CheckedIn) && Advances(cfg, w, w', e)
    requires e.Accepted? ==> HasStatus(w.service.rounds, e.voterId, Eligible)
    ensures HasStatus(w'.service.rounds, v, CheckedIn)
  {}

  lemma CheckedInKept(cfg: Config, w: World, st: Step, v: uint32)
    requires VotersOk(cfg, w) && HasStatus(w.service.rounds, v, CheckedIn)
    ensures HasStatus(Next(cfg, w, st).service.rounds, v, CheckedIn)
  {
    if st.Message? {
      MessageEffect(cfg, w, st);
      var added := Added(cfg, w, st);
      if added != [] { CheckedInAfterPhase(cfg, w, Next(cfg, w, st), added[0], v); }
    } else if st.HandlerRuns? {
      RunHandlerEffect(w.service.rounds, st.handler);
    }
  }

  /** A message gets an approved ticket reply exactly when it moves a voter from PENDING to
      CHECKED_IN, and then it is the voter that the reply names. */
  lemma {:induction false} ApprovalChecksIn(cfg: Config, start: World, steps: seq<Step>, st: Step)
    requires Initial(cfg, start) && st.Message? && Enabled(cfg, Exec(cfg, start, steps), st)
    ensures var w := Exec(cfg, start, steps);
            var reply := Receive(cfg, w.service, w.signed, w.clock, st.endpoint, st.asCheckin, st.asTicket,
                                 Hex(st.ticketBytes), Hex(st.secretBytes)).1;
            var r, r' := w.service.rounds, Next(cfg, w, st).service.rounds;
            if reply.TicketReplied? && reply.ticket.approved
            then HasStatus(r, reply.ticket.voterId, Pending) && r'.status == r.status[reply.ticket.voterId := CheckedIn]
            else forall v: uint32 :: HasStatus(r', v, CheckedIn) ==> HasStatus(r, v, CheckedIn)
  {
    InvAlways(cfg, start, steps);
    ApprovalInStep(cfg, Exec(cfg, start, steps), st);
  }

  lemma ApprovalInStep(cfg: Config, w: World, st: Step)
    requires VotersOk(cfg, w) && st.Message? && Enabled(cfg, w, st)
    ensures var reply := Receive(cfg, w.service, w.signed, w.clock, st.endpoint, st.asCheckin, st.asTicket,
                                 Hex(st.ticketBytes), Hex(st.secretBytes)).1;
            var r, r' := w.service.rounds, Next(cfg, w, st).service.rounds;
            if reply.TicketReplied? && reply.ticket.approved
            then HasStatus(r, reply.ticket.voterId, Pending) && r'.status == r.status[reply.ticket.voterId := CheckedIn]
            else forall v: uint32 :: HasStatus(r', v, CheckedIn) ==> HasStatus(r, v, CheckedIn)
  {
    hide Validates; hide Fresh; hide FindVoter; hide Dec; hide InWindow; hide EnsureKey; hide Refreshed;
    hide VoterOk; hide Hex; hide Checkin; hide Redeem; hide TicketAnswer; hide Dropped;
    var d, ep := w.service.directory, st.endpoint;
    var s1 := w.service.(armed := w.service.armed - {ep});
    if ep in d.clientIds && d.clientIds[ep] in d.clients {
      var c := d.clientIds[ep];
      if d.clients[c].TrustedClient? {
        RedeemCases(cfg, s1, w.signed, w.clock, c, st.asTicket);
        var reply := Redeem(cfg, s1, w.signed, w.clock, c, st.asTicket).1;
        if reply.TicketReplied? && reply.ticket.approved { FinishKeepsValid(w.service.rounds, reply.ticket.voterId); }
      } else if st.asCheckin.Ok? {
        CheckinCases(cfg, s1, w.signed, w.clock, ep, c, st.asCheckin.value, Hex(st.ticketBytes), Hex(st.secretBytes));
      }
    }
  }

  // ------------------------------------------------------------------------- provenance

  /** Both parties of a logged request: the client's pinned key, and a signature under it. */
  ghost predicate SignedByPinned(w: World, client: uint32, key: PublicKey, body: SignedBody, bytes: seq<byte>) {
    && client in w.service.directory.verifiers && w.service.directory.verifiers[client] == key
    && Signed(key, body, bytes) in w.signed
  }

  /** A checked-in voter has a past: the ID service confirmed the voter under names that match its
      records; then a kiosk-signed request with that statement was accepted; then a trusted client
      sent, under its pinned key, the voter's PIN and a ticket issued for the voter. */
  lemma {:induction false} CheckedInHasProvenance(cfg: Config, start: World, steps: seq<Step>, v: uint32)
    returns (i: nat, j: nat, k: nat)
    requires Initial(cfg, start) && HasStatus(Exec(cfg, start, steps).service.rounds, v, CheckedIn)
    ensures var w := Exec(cfg, start, steps);
            && i < j < k < |w.log| && w.log[i].IdConfirmed? && w.log[j].Accepted? && w.log[k].Approved?
            && w.log[i].voterId == w.log[j].voterId == w.log[k].voterId == v
            && w.log[i].presented == w.log[j].request.body.verified.presented
            && NamesMatch(cfg.records, w.log[i].presented.body, v)
            && w.log[j].request.body.voterId == v
            && SignedByPinned(w, w.log[j].request.body.clientId, w.log[j].key,
                              CheckinRequestBody(w.log[j].request.body), w.log[j].request.signature)
            && w.log[k].redeemed.body.clientId in cfg.trusted
            && SignedByPinned(w, w.log[k].redeemed.body.clientId, w.log[k].key,
                              TicketRequestBody(w.log[k].redeemed.body), w.log[k].redeemed.signature)
            && Dec(w.log[k].redeemed.body.pin) == PinOf(FindVoter(cfg.roll, v))
            && IssuedBefore(w.log[..k], start.service.ticketFile, w.log[k].redeemed.body.ticket,
                            TicketFile.Entry(v, w.log[k].secret))
  {
    hide Exec; hide FindVoter; hide NamesMatch; hide Dec; hide SignaturesOk; hide TicketsOk;
    InvAlways(cfg, start, steps);
    var w := Exec(cfg, start, steps);
    assert VoterOk(cfg, w, v);
    k := LastConcern(w.log, v);
    assert w.log[k].Approved?;
    assert WindowOk(cfg, w.log, k);
    j :| RoundStart(w.log, j, k, v);
    assert EventOk(cfg, w, start.service.ticketFile, j) && EventOk(cfg, w, start.service.ticketFile, k);
    var e := IdConfirmed(w.log[j].request.body.verified.presented, v);
    i :| 0 <= i < j && w.log[..j][i] == e;
  }

  /** Every approval lies in the window that the latest acceptance of its voter opened. */
  lemma {:induction false} ApprovedInWindow(cfg: Config, start: World, steps: seq<Step>, k: nat) returns (j: nat)
    requires Initial(cfg, start) && k < |Exec(cfg, start, steps).log| && Exec(cfg, start, steps).log[k].Approved?
    ensures var log := Exec(cfg, start, steps).log;
            && RoundStart(log, j, k, log[k].voterId)
            && log[j].at.steady <= log[k].at.steady <= log[j].at.steady + cfg.timeout
  {
    InvAlways(cfg, start, steps);
    var log := Exec(cfg, start, steps).log;
    assert WindowOk(cfg, log, k);
    j :| RoundStart(log, j, k, log[k].voterId) &&
         log[j].at.steady <= log[k].at.steady <= log[j].at.steady + cfg.timeout;
  }

  /** The lower end of the window never turns a ticket away. */
  lemma {:induction false} LowerBoundHolds(cfg: Config, start: World, steps: seq<Step>, v: uint32)
    requires Initial(cfg, start) && v in Exec(cfg, start, steps).service.rounds.timers
    ensures var w := Exec(cfg, start, steps); var t := w.service.rounds.timers[v];
            InWindow(cfg, t, w.clock.steady) <==> w.clock.steady <= t.expiry
  {
    InvAlways(cfg, start, steps);
    var j := OpenRound(cfg, Exec(cfg, start, steps), v);
  }

  // ----------------------------------------------------------------------------- replays

  /** Two acceptances of one request body are a timeout apart on the steady clock and at most two
      freshness intervals apart on the wall clock. */
  lemma {:induction false} TwoAcceptances(cfg: Config, start: World, steps: seq<Step>, i: nat, j: nat)
    requires Initial(cfg, start) && i < j < |Exec(cfg, start, steps).log|
    requires var log := Exec(cfg, start, steps).log;
             && log[i].Accepted? && log[j].Accepted? && log[i].request.body == log[j].request.body
             && SaneClock(log[i].at.wall, cfg.freshness) && SaneClock(log[j].at.wall, cfg.freshness)
    ensures var log := Exec(cfg, start, steps).log;
            && log[j].at.steady - log[i].at.steady >= cfg.timeout
            && log[j].at.wall - log[i].at.wall <= 2 * cfg.freshness
  {
    InvAlways(cfg, start, steps);
    var w := Exec(cfg, start, steps);
    assert EventOk(cfg, w, start.service.ticketFile, i) && EventOk(cfg, w, start.service.ticketFile, j);
    FreshTwice(w.log[i].at.wall, w.log[j].at.wall, w.log[i].request.body.timestamp, cfg.freshness, cfg.absMin);
  }

  /** Both clocks advance together and the wall clock reads a sane time at every acceptance. */
  ghost predicate OneClock(cfg: Config, log: seq<Event>, offset: int) {
    forall k :: 0 <= k < |log| && log[k].Accepted? ==>
      log[k].at.wall == log[k].at.steady + offset && SaneClock(log[k].at.wall, cfg.freshness)
  }

  /** No request body is accepted twice when the timeout is longer than two freshness intervals. */
  lemma {:induction false} NeverAcceptedTwice(cfg: Config, start: World, steps: seq<Step>, offset: int, i: nat, j: nat)
    requires Initial(cfg, start) && OneClock(cfg, Exec(cfg, start, steps).log, offset)
    requires 2 * cfg.freshness < cfg.timeout && i < j < |Exec(cfg, start, steps).log|
    requires Exec(cfg, start, steps).log[i].Accepted? && Exec(cfg, start, steps).log[j].Accepted?
    ensures Exec(cfg, start, steps).log[i].request.body != Exec(cfg, start, steps).log[j].request.body
  {
    var log := Exec(cfg, start, steps).log;
    if log[i].request.body == log[j].request.body {
      TwoAcceptances(cfg, start, steps, i, j);
    }
  }

  // --------------------------------------------------------------------- keys and tickets

  /** Over a whole run: verifiers and public keys are one map, a key once recorded is never
      changed, a recorded client has the type its id calls for, and whoever can send a message
      that is dispatched has a verifier already. */
  lemma {:induction false} KeysPinned(cfg: Config, start: World, steps: seq<Step>, more: seq<Step>)
    requires Initial(cfg, start)
    ensures var d, d' := Exec(cfg, start, steps).service.directory, Exec(cfg, start, steps + more).service.directory;
            && d.publicKeys == d.verifiers
            && Extends(d, d')
            && (forall c :: c in d.clients ==> (d.clients[c] == TrustedClient <==> c in cfg.trusted))
            && (forall ep :: ep in d.clientIds && d.clientIds[ep] in d.clients ==>
                  d.clientIds[ep] in d.verifiers && EnsureKey(cfg, d, d.clientIds[ep]) == d)
  {
    InvAlways(cfg, start, steps);
    KeysStay(cfg, start, steps, more);
    var w := Exec(cfg, start, steps);
    var d := w.service.directory;
    forall ep | ep in d.clientIds && d.clientIds[ep] in d.clients
      ensures d.clientIds[ep] in d.verifiers && EnsureKey(cfg, d, d.clientIds[ep]) == d
    {
      SenderHasKey(cfg, w, ep);
    }
  }

  lemma ExtendsTrans(a: Directory, b: Directory, c: Directory)
    requires Extends(a, b) && Extends(b, c)
    ensures Extends(a, c)
  {}

  lemma {:induction false} KeysStay(cfg: Config, start: World, steps: seq<Step>, more: seq<Step>)
    requires Initial(cfg, start)
    ensures Extends(Exec(cfg, start, steps).service.directory, Exec(cfg, start, steps + more).service.directory)
  {
    hide Next; hide KeysOk; hide Extends; hide TicketsOk; hide VotersOk; hide SignaturesOk; hide EventsOk; hide TimeOk;
    hide WindowsOk; hide Initial;
    if more == [] {
      assert steps + more == steps;
      ExtendsItself(Exec(cfg, start, steps).service.directory);
    } else {
      var some := more[..|more| - 1];
      KeysStay(cfg, start, steps, some);
      assert (steps + more)[..|steps + more| - 1] == steps + some;
      InvAlways(cfg, start, steps + some);
      KeysKept(cfg, Exec(cfg, start, steps + some), more[|more| - 1]);
      ExtendsTrans(Exec(cfg, start, steps).service.directory, Exec(cfg, start, steps + some).service.directory,
                   Exec(cfg, start, steps + more).service.directory);
    }
  }

  lemma ExtendsItself(d: Directory)
    ensures Extends(d, d)
  {}

  /** In memory and on disk: every ticket in the map is in the file with the same voter and secret,
      and a Phase 2 message leaves the map equal to the file's last-wins contents. */
  lemma {:induction false} TicketMapIsFile(
      cfg: Config, start: World, steps: seq<Step>, c: uint32, m: Result<TicketRequest>)
    requires Initial(cfg, start)
    ensures var w := Exec(cfg, start, steps); var s := w.service;
            && Within(s.tickets, TicketFile.Contents(s.ticketFile))
            && Redeem(cfg, s, w.signed, w.clock, c, m).0.tickets == TicketFile.Contents(s.ticketFile)
  {
    InvAlways(cfg, start, steps);
    var w := Exec(cfg, start, steps);
    RefreshedIsFile(w.service);
    RedeemCases(cfg, w.service, w.signed, w.clock, c, m);
  }
}
