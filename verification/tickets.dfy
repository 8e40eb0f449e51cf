/** Which tickets redeem a round. Tickets are recorded per voter and never erased, so a ticket is not
    tied to its round: exactly the tickets on file under the voter redeem whatever round is open. */
module Tickets {
  import opened Text
  import opened Messages
  import opened Freshness
  import opened Rounds
  import opened Roll
  import opened Protocol
  import opened Effects
  import opened Invariants
  import opened Provenance
  import opened Timing
  import opened Theorems
  import opened Honest
  import opened Scripts
  import opened Replay
  import TicketFile

  ghost predicate FiledUnder(file: string, v: uint32, ticket: string) {
    ticket in TicketFile.Contents(file) && TicketFile.Contents(file)[ticket].voterId == v
  }

  // ----------------------------------------------------------------- exactly the tickets on file

  /** Whoever does whatever: a step that checks a voter in is a message with a ticket on file under the voter. */
  lemma {:induction false} OnlyFiledTicketsRedeem(cfg: Config, start: World, steps: seq<Step>, st: Step, v: uint32)
    requires Initial(cfg, start)
    requires !HasStatus(Exec(cfg, start, steps).service.rounds, v, CheckedIn)
    requires HasStatus(Next(cfg, Exec(cfg, start, steps), st).service.rounds, v, CheckedIn)
    ensures st.Message? && st.asTicket.Ok?
    ensures FiledUnder(Exec(cfg, start, steps).service.ticketFile, v, st.asTicket.value.body.ticket)
  {
    hide Exec;
    InvAlways(cfg, start, steps);
    RedeemedByFiled(cfg, Exec(cfg, start, steps), st, v);
  }

  lemma RedeemedByFiled(cfg: Config, w: World, st: Step, v: uint32)
    requires VotersOk(cfg, w) && TicketsOk(w.service)
    requires !HasStatus(w.service.rounds, v, CheckedIn) && HasStatus(Next(cfg, w, st).service.rounds, v, CheckedIn)
    ensures st.Message? && st.asTicket.Ok? && FiledUnder(w.service.ticketFile, v, st.asTicket.value.body.ticket)
  {
    hide VoterOk; hide TicketsOk; hide TicketFile.Contents; hide IdConfirms; hide IdPlausible; hide ReceiveStep;
    if st.Message? {
      RedeemedByMessage(cfg, w, st, v);
    } else if st.HandlerRuns? {
      RunHandlerEffect(w.service.rounds, st.handler);
    }
  }

  lemma RedeemedByMessage(cfg: Config, w: World, st: Step, v: uint32)
    requires st.Message? && TicketsOk(w.service)
    requires !HasStatus(w.service.rounds, v, CheckedIn) && HasStatus(Next(cfg, w, st).service.rounds, v, CheckedIn)
    ensures st.asTicket.Ok? && FiledUnder(w.service.ticketFile, v, st.asTicket.value.body.ticket)
  {
    hide Next; hide Added; hide Validates; hide Confirms; hide Refreshed; hide TicketFile.Contents; hide Dropped;
    hide SentBy; hide PinnedAfter; hide Fresh;
    MessageEffect(cfg, w, st);
    RefreshedIsFile(w.service);
  }

  /** The trusted device signs a request with the ticket and the PIN, dated now, and sends it. */
  function AttemptSteps(w: World, dev: Device, pin: uint32, ticket: string): seq<Step> {
    var r := TicketOf(dev, pin, w.clock.wall, ticket, []);
    [ClientSigns(dev.key, TicketRequestBody(r.body), []),
     Message(dev.endpoint, Err, Ok(r), seq(16, i => 0), seq(32, i => 0), [])]
  }

  function Attempt(cfg: Config, w: World, dev: Device, pin: uint32, ticket: string): World {
    Exec(cfg, w, AttemptSteps(w, dev, pin, ticket))
  }

  lemma AttemptIs(cfg: Config, w: World, dev: Device, pin: uint32, ticket: string)
    requires Connected(cfg, w, dev, TrustedClient)
    ensures var steps := AttemptSteps(w, dev, pin, ticket);
            var w1 := w.(signed := w.signed + {Signed(dev.key, steps[0].body, steps[0].bytes)});
            Attempt(cfg, w, dev, pin, ticket) == Next(cfg, w1, steps[1])
  {
    var steps := AttemptSteps(w, dev, pin, ticket);
    assert steps == [steps[0]] + [steps[1]] && [] + [steps[0]] == [steps[0]];
    ExecOne(cfg, w, [steps[0]], steps[1]);
    ExecOne(cfg, w, [], steps[0]);
  }

  /** The round of `v` can be redeemed now: it is open, and a trusted device has the PIN. */
  ghost predicate RoundOpen(cfg: Config, w: World, dev: Device, v: uint32, pin: uint32) {
    && Connected(cfg, w, dev, TrustedClient) && PinOnRoll(cfg, v, pin)
    && v in w.service.rounds.timers && w.clock.steady <= w.service.rounds.timers[v].expiry
  }

  lemma FreshNow(cfg: Config, w: World)
    ensures FreshAt(cfg, w, w.clock.wall)
  {}

  /** The attempt succeeds with a ticket on file under the voter. */
  lemma AttemptSucceeds(cfg: Config, start: World, w: World, dev: Device, v: uint32, pin: uint32, ticket: string,
                        secret: string)
    requires Inv(cfg, start, w) && RoundOpen(cfg, w, dev, v, pin) && OnFile(w, v, ticket, secret)
    ensures var w' := Attempt(cfg, w, dev, pin, ticket);
            && HasStatus(w'.service.rounds, v, CheckedIn) && SecretSent(cfg, w', v, pin, secret, [])
            && w'.log == w.log + [Approved(v, TicketOf(dev, pin, w.clock.wall, ticket, []), dev.key, secret, w.clock)]
  {
    hide Next; hide Fresh; hide FindVoter; hide OnFile; hide EventsOk; hide SignaturesOk; hide KeysOk; hide Attempt;
    hide SecretSent;
    var steps := AttemptSteps(w, dev, pin, ticket);
    var w1 := w.(signed := w.signed + {Signed(dev.key, steps[0].body, steps[0].bytes)});
    AttemptIs(cfg, w, dev, pin, ticket);
    FreshNow(cfg, w);
    AfterSigning(cfg, w, w1, v, ticket, secret);
    TicketApproved(cfg, w1, dev, v, TicketOf(dev, pin, w.clock.wall, ticket, []), steps[1], secret);
  }

  lemma AfterSigning(cfg: Config, w: World, w1: World, v: uint32, ticket: string, secret: string)
    requires VotersOk(cfg, w) && TimeOk(cfg, w) && w1 == w.(signed := w1.signed)
    ensures VotersOk(cfg, w1) && TimeOk(cfg, w1) && (OnFile(w, v, ticket, secret) ==> OnFile(w1, v, ticket, secret))
  {
    VotersUntouched(cfg, w, w1);
    TimeUntouched(cfg, w, w1);
  }

  /** In every reachable world in which a voter's round is open: a ticket redeems the round if and only
      if it is on file under the voter, and it then brings the secret it is on file with, whichever
      round it was issued for. */
  lemma {:induction false} RedeemsIffFiled(
      cfg: Config, start: World, steps: seq<Step>, dev: Device, v: uint32, pin: uint32, ticket: string)
    requires Initial(cfg, start) && RoundOpen(cfg, Exec(cfg, start, steps), dev, v, pin)
    ensures var w := Exec(cfg, start, steps);
            var w' := Attempt(cfg, w, dev, pin, ticket); var file := TicketFile.Contents(w.service.ticketFile);
            && (HasStatus(w'.service.rounds, v, CheckedIn) <==> FiledUnder(w.service.ticketFile, v, ticket))
            && (FiledUnder(w.service.ticketFile, v, ticket) ==> SecretSent(cfg, w', v, pin, file[ticket].secret, []))
  {
    hide Exec; hide Next; hide Attempt; hide SecretSent; hide TicketFile.Contents; hide FindVoter;
    hide EventsOk; hide SignaturesOk; hide KeysOk;
    var w := Exec(cfg, start, steps);
    var file := TicketFile.Contents(w.service.ticketFile);
    InvAlways(cfg, start, steps);
    if FiledUnder(w.service.ticketFile, v, ticket) {
      assert file[ticket] == TicketFile.Entry(v, file[ticket].secret);
      AttemptSucceeds(cfg, start, w, dev, v, pin, ticket, file[ticket].secret);
    } else if HasStatus(Attempt(cfg, w, dev, pin, ticket).service.rounds, v, CheckedIn) {
      var st := AttemptSteps(w, dev, pin, ticket);
      AttemptIs(cfg, w, dev, pin, ticket);
      var w1 := w.(signed := w.signed + {Signed(dev.key, st[0].body, st[0].bytes)});
      AfterSigning(cfg, w, w1, v, ticket, "");
      assert EntryOk(w.service.rounds, v);
      RedeemedByFiled(cfg, w1, st[1], v);
    }
  }

  // -------------------------------------------------------------------- the round's own ticket

  /** The ticket that the acceptance which opened the voter's round issued. */
  ghost predicate OwnTicket(log: seq<Event>, v: uint32, ticket: string) {
    exists j: nat :: RoundStart(log, j, |log|, v) && log[j].ticket == ticket
  }

  /** Only the round's own ticket redeems it if and only if no other ticket is on file under the voter. */
  lemma {:induction false} OnlyOwnIffAlone(
      cfg: Config, start: World, steps: seq<Step>, dev: Device, v: uint32, pin: uint32)
    requires Initial(cfg, start) && RoundOpen(cfg, Exec(cfg, start, steps), dev, v, pin)
    ensures var w := Exec(cfg, start, steps);
            (forall t :: HasStatus(Attempt(cfg, w, dev, pin, t).service.rounds, v, CheckedIn) ==>
                           OwnTicket(w.log, v, t))
            <==>
            (forall t :: FiledUnder(w.service.ticketFile, v, t) ==> OwnTicket(w.log, v, t))
  {
    hide *;
    var w := Exec(cfg, start, steps);
    forall t: string
      ensures HasStatus(Attempt(cfg, w, dev, pin, t).service.rounds, v, CheckedIn)
         <==> FiledUnder(w.service.ticketFile, v, t)
    {
      RedeemsIffFiled(cfg, start, steps, dev, v, pin, t);
    }
  }

  lemma {:induction false} HistoryUpTo(log: seq<Event>, k: nat, v: uint32)
    requires k <= |log| && forall i :: k <= i < |log| ==> !Concerns(log[i], v)
    ensures History(log, v) == History(log[..k], v)
    decreases |log|
  {
    if k == |log| {
      assert log[..k] == log;
    } else {
      var front := log[..|log| - 1];
      assert front[..k] == log[..k];
      HistoryUpTo(front, k, v);
    }
  }

  /** The acceptances in a history are those in the log. */
  lemma {:induction false} AcceptedInHistory(log: seq<Event>, v: uint32)
    ensures CountAccepted(History(log, v)) == 0 <==> forall i :: 0 <= i < |log| ==> !AcceptedFor(log[i], v)
  {
    if log == [] {
    } else {
      var front, last := log[..|log| - 1], log[|log| - 1];
      AcceptedInHistory(front, v);
      HistoryAppend(front, last, v);
      assert front + [last] == log;
      if Concerns(last, v) { CountStep(History(front, v), last); }
      assert forall i :: 0 <= i < |front| ==> front[i] == log[i];
    }
  }

  lemma CountStep(h: seq<Event>, e: Event)
    ensures CountAccepted(h + [e]) == CountAccepted(h) + if e.Accepted? then 1 else 0
    ensures CountReverted(h + [e]) == CountReverted(h) + if e.Reverted? then 1 else 0
  {
    assert (h + [e])[..|h|] == h;
  }

  /** Before the acceptance that opened the round there were as many acceptances as reverts. */
  lemma AcceptedBefore(log: seq<Event>, j: nat, v: uint32)
    requires RoundStart(log, j, |log|, v) && Legal(History(log, v)) && StatusAfter(History(log, v)) == Pending
    ensures CountReverted(History(log, v)) == CountAccepted(History(log[..j], v))
  {
    hide Legal; hide CountReverted; hide CountAccepted; hide CountApproved;
    var before, e := log[..j], log[j];
    assert log[..j + 1] == before + [e];
    HistoryUpTo(log, j + 1, v);
    HistoryAppend(before, e, v);
    CountStep(History(before, v), e);
    HistoryConcerns(log, v);
    LegalCounts(History(log, v));
  }

  /** The acceptance that opened the round is the first one exactly when no round has been reverted. */
  lemma FirstIffNoRevert(cfg: Config, w: World, v: uint32) returns (j: nat)
    requires VotersOk(cfg, w) && TimeOk(cfg, w) && v in w.service.rounds.timers
    ensures RoundStart(w.log, j, |w.log|, v)
    ensures CountReverted(History(w.log, v)) == 0 <==> forall i :: 0 <= i < j ==> !AcceptedFor(w.log[i], v)
  {
    hide Legal; hide CountReverted; hide CountAccepted; hide History; hide TimeOk;
    j := OpenRound(cfg, w, v);
    assert VoterOk(cfg, w, v) && EntryOk(w.service.rounds, v);
    AcceptedBefore(w.log, j, v);
    AcceptedInHistory(w.log[..j], v);
    assert forall i :: 0 <= i < j ==> w.log[..j][i] == w.log[i];
  }

  /** The start of the open round is unique. */
  lemma OwnTicketIs(log: seq<Event>, j: nat, v: uint32, ticket: string)
    requires RoundStart(log, j, |log|, v)
    ensures OwnTicket(log, v, ticket) <==> ticket == log[j].ticket
  {
    if OwnTicket(log, v, ticket) {
      var i: nat :| RoundStart(log, i, |log|, v) && log[i].ticket == ticket;
      assert Concerns(log[i], v) && Concerns(log[j], v);
    }
  }

  /** If the ticket file had nothing under the voter at the start and no round of the voter has been
      reverted, then no ticket but the open round's own is on file under the voter. */
  lemma {:induction false} OneTicketUntilRevert(cfg: Config, start: World, steps: seq<Step>, v: uint32, t: string)
    requires Initial(cfg, start) && v in Exec(cfg, start, steps).service.rounds.timers
    requires forall x :: !FiledUnder(start.service.ticketFile, v, x)
    requires CountReverted(History(Exec(cfg, start, steps).log, v)) == 0
    ensures var w := Exec(cfg, start, steps); FiledUnder(w.service.ticketFile, v, t) ==> OwnTicket(w.log, v, t)
  {
    hide Exec; hide History; hide VotersOk; hide TimeOk; hide SignaturesOk; hide EventOk; hide RoundStart;
    hide OwnTicket;
    var w := Exec(cfg, start, steps);
    InvAlways(cfg, start, steps);
    var j := FirstIffNoRevert(cfg, w, v);
    OwnTicketIs(w.log, j, v, t);
    if FiledUnder(w.service.ticketFile, v, t) {
      var entry := TicketFile.Contents(w.service.ticketFile)[t];
      assert !FiledUnder(start.service.ticketFile, v, t);
      assert IssuedBefore(w.log, start.service.ticketFile, t, entry);
      var e :| e in w.log && Issues(e, t, entry);
      var i :| 0 <= i < |w.log| && w.log[i] == e;
      LastAcceptance(w.log, i, j, v);
    }
  }

  lemma LastAcceptance(log: seq<Event>, i: nat, j: nat, v: uint32)
    requires RoundStart(log, j, |log|, v) && i < |log| && AcceptedFor(log[i], v)
    requires forall k :: 0 <= k < j ==> !AcceptedFor(log[k], v)
    ensures i == j
  {
    assert Concerns(log[i], v);
  }

  /** An issued ticket is on file with its voter and secret unless the same string was issued again. */
  lemma {:induction false} IssuedStays(cfg: Config, start: World, steps: seq<Step>, i: nat)
    requires Initial(cfg, start) && i < |Exec(cfg, start, steps).log| && Exec(cfg, start, steps).log[i].Accepted?
    requires NotReissued(Exec(cfg, start, steps).log, i + 1, Exec(cfg, start, steps).log[i].ticket)
    ensures var w := Exec(cfg, start, steps); OnFile(w, w.log[i].voterId, w.log[i].ticket, w.log[i].secret)
    decreases |steps|
  {
    hide Next; hide OnFile; hide KeysOk; hide EventsOk; hide SignaturesOk; hide VotersOk; hide TicketsOk;
    if steps == [] {
    } else {
      var before, st := steps[..|steps| - 1], steps[|steps| - 1];
      var w1, w := Exec(cfg, start, before), Exec(cfg, start, steps);
      InvAlways(cfg, start, before);
      StepEvents(cfg, w1, st);
      if i < |w1.log| {
        NotReissuedEarlier(w1.log, w.log, i + 1, w.log[i].ticket);
        IssuedStays(cfg, start, before, i);
        OnFileStep(cfg, w1, st, w.log[i].voterId, w.log[i].ticket, w.log[i].secret);
      } else {
        JustIssued(cfg, w1, st);
      }
    }
  }

  lemma JustIssued(cfg: Config, w: World, st: Step)
    requires TicketsOk(w.service) && Added(cfg, w, st) != [] && Added(cfg, w, st)[0].Accepted?
    ensures var e := Added(cfg, w, st)[0]; OnFile(Next(cfg, w, st), e.voterId, e.ticket, e.secret)
  {
    hide Next; hide Added; hide TicketsOk; hide TicketFile.Contents; hide Validates; hide Enabled; hide Confirms;
    StepEvents(cfg, w, st);
    MessageEffect(cfg, w, st);
    TicketsAfterIssue(cfg, w, Next(cfg, w, st), st, Added(cfg, w, st)[0]);
  }

  /** No ticket string was drawn twice in the run, and none of them was on file before. */
  ghost predicate Distinct(log: seq<Event>, file: string) {
    && (forall i, j :: 0 <= i < j < |log| && log[i].Accepted? && log[j].Accepted? ==> log[i].ticket != log[j].ticket)
    && (forall i :: 0 <= i < |log| && log[i].Accepted? ==> log[i].ticket !in TicketFile.Contents(file))
  }

  lemma OlderTicketFiled(cfg: Config, start: World, steps: seq<Step>, v: uint32, i: nat)
    requires Initial(cfg, start) && Distinct(Exec(cfg, start, steps).log, start.service.ticketFile)
    requires i < |Exec(cfg, start, steps).log| && AcceptedFor(Exec(cfg, start, steps).log[i], v)
    ensures FiledUnder(Exec(cfg, start, steps).service.ticketFile, v, Exec(cfg, start, steps).log[i].ticket)
  {
    hide Exec;
    IssuedStays(cfg, start, steps, i);
  }

  /** When is a ticket good for one round only? Let the ticket file have nothing under the voter at the
      start and let the random tickets be distinct. Then, whenever the voter's round is open, only the
      round's own ticket redeems it if and only if no earlier round of the voter was reverted. */
  lemma {:induction false} OnlyOwnIffNoRevert(
      cfg: Config, start: World, steps: seq<Step>, dev: Device, v: uint32, pin: uint32)
    requires Initial(cfg, start) && RoundOpen(cfg, Exec(cfg, start, steps), dev, v, pin)
    requires forall x :: !FiledUnder(start.service.ticketFile, v, x)
    requires Distinct(Exec(cfg, start, steps).log, start.service.ticketFile)
    ensures var w := Exec(cfg, start, steps);
            (forall t :: HasStatus(Attempt(cfg, w, dev, pin, t).service.rounds, v, CheckedIn) ==>
                           OwnTicket(w.log, v, t))
            <==> CountReverted(History(w.log, v)) == 0
  {
    hide Exec; hide Attempt; hide FiledUnder; hide OwnTicket; hide History; hide RoundStart; hide VotersOk; hide TimeOk;
    hide EventsOk; hide SignaturesOk; hide Connected; hide CountReverted;
    var w := Exec(cfg, start, steps);
    InvAlways(cfg, start, steps);
    OnlyOwnIffAlone(cfg, start, steps, dev, v, pin);
    var j := FirstIffNoRevert(cfg, w, v);
    if CountReverted(History(w.log, v)) == 0 {
      forall t | FiledUnder(w.service.ticketFile, v, t) ensures OwnTicket(w.log, v, t) {
        OneTicketUntilRevert(cfg, start, steps, v, t);
      }
    } else {
      StartInLog(w.log, j, v);
      var i :| 0 <= i < j && AcceptedFor(w.log[i], v);
      OlderTicketFiled(cfg, start, steps, v, i);
      OwnTicketIs(w.log, j, v, w.log[i].ticket);
    }
  }

  lemma StartInLog(log: seq<Event>, j: nat, v: uint32)
    requires RoundStart(log, j, |log|, v)
    ensures j < |log| && log[j].Accepted?
  {}

  // ------------------------------------------------------------ a ticket that outlives its round

  /** What the log gains when a voter's ticket is issued, times out, a second one is issued, and then
      the first one redeems the second round and brings the secret of the first. */
  ghost predicate RedeemedWithOldTicket(log: seq<Event>, log': seq<Event>, v: uint32) {
    var n := |log|;
    && |log'| == n + 6 && log <= log'
    && AcceptedFor(log'[n + 1], v) && log'[n + 2] == Reverted(v) && AcceptedFor(log'[n + 4], v)
    && log'[n + 4].ticket != log'[n + 1].ticket
    && log'[n + 5].Approved? && log'[n + 5].voterId == v
    && log'[n + 5].redeemed.body.ticket == log'[n + 1].ticket && log'[n + 5].secret == log'[n + 1].secret
  }

  /** The world after a round of the voter has been accepted and has timed out. */
  lemma OneRoundTimedOut(cfg: Config, start: World, w: World, dev: Device, p: Voter, idData: seq<byte>, bs: Bytes)
    returns (run: seq<Step>)
    requires Inv(cfg, start, w) && CanCheckIn(cfg, w, dev, p) && Lengths(bs) && w.clock.wall + Wait(cfg) < TWO_64
    ensures var w' := Exec(cfg, w, run);
            var c := RequestAt(dev, p, w.clock.wall, idData, bs);
            && Inv(cfg, start, w') && CanCheckIn(cfg, w', dev, p) && SameClients(w, w')
            && OnFile(w', p.id, Hex(bs.ticket), Hex(bs.secret))
            && w'.log == w.log + [IdConfirmed(c.body.verified.presented, p.id), AcceptanceOf(dev, c, bs, w.clock),
                                  Reverted(p.id)]
  {
    hide Exec; hide Hex; hide Phase1; hide TimeOut; hide Connected; hide EventsOk; hide SignaturesOk; hide VoterOk;
    hide KeysOk; hide TicketsOk; hide WindowsOk; hide TimeOk; hide NamesMatch; hide InOrder; hide Fresh;
    var c := RequestAt(dev, p, w.clock.wall, idData, bs);
    var one := Phase1(dev, c, bs);
    var w1 := Exec(cfg, w, one);
    FreshNow(cfg, w);
    Phase1AtOnce(cfg, w, dev, p, w.clock.wall, idData, bs);
    RoundRunsOut(cfg, w, w1, dev, c, bs);
    InvExec(cfg, start, w, one);
    var out := TimeOut(cfg, w1, w1.service.rounds.timers[p.id].id);
    TimesOut(cfg, w1, p.id);
    run := one + out;
    ExecAppend(cfg, w, one, out);
    InvExec(cfg, start, w1, out);
    StaysConnected(cfg, w, Exec(cfg, w, run), dev, UntrustedClient);
  }

  /** From there, a second ticket is issued, and the first one redeems its round. */
  lemma OldTicketRedeems(cfg: Config, start: World, w: World, kiosk: Device, trusted: Device, p: Voter,
                         idData: seq<byte>, bs: Bytes, ticket: string, secret: string)
    returns (run: seq<Step>)
    requires Inv(cfg, start, w) && CanCheckIn(cfg, w, kiosk, p) && Lengths(bs) && cfg.timeout >= 0
    requires Connected(cfg, w, trusted, TrustedClient) && PinOnRoll(cfg, p.id, p.pin)
    requires OnFile(w, p.id, ticket, secret) && Hex(bs.ticket) != ticket
    ensures var w' := Exec(cfg, w, run); var c := RequestAt(kiosk, p, w.clock.wall, idData, bs);
            && HasStatus(w'.service.rounds, p.id, CheckedIn) && SecretSent(cfg, w', p.id, p.pin, secret, [])
            && w'.log == w.log + [IdConfirmed(c.body.verified.presented, p.id), AcceptanceOf(kiosk, c, bs, w.clock)]
                       + [Approved(p.id, TicketOf(trusted, p.pin, w.clock.wall, ticket, []), trusted.key, secret,
                                   w.clock)]
  {
    hide Exec; hide Hex; hide Phase1; hide Connected; hide EventsOk; hide SignaturesOk; hide VotersOk; hide FindVoter;
    hide KeysOk; hide TicketsOk; hide WindowsOk; hide TimeOk; hide Identifiable; hide InOrder; hide Fresh; hide OnFile;
    hide SecretSent; hide AttemptSteps;
    var c := RequestAt(kiosk, p, w.clock.wall, idData, bs);
    var one := Phase1(kiosk, c, bs);
    var w1 := Exec(cfg, w, one);
    FreshNow(cfg, w);
    Phase1AtOnce(cfg, w, kiosk, p, w.clock.wall, idData, bs);
    InvExec(cfg, start, w, one);
    StaysConnected(cfg, w, w1, trusted, TrustedClient);
    TicketStaysOnFile(cfg, start, w, one, p.id, ticket, secret);
    AttemptSucceeds(cfg, start, w1, trusted, p.id, p.pin, ticket, secret);
    run := one + AttemptSteps(w1, trusted, p.pin, ticket);
    ExecAppend(cfg, w, one, AttemptSteps(w1, trusted, p.pin, ticket));
  }

  lemma OldTicketInLog(log: seq<Event>, log': seq<Event>, log'': seq<Event>, id: Event, e: Event, id': Event, e': Event,
                       a: Event, v: uint32)
    requires AcceptedFor(e, v) && AcceptedFor(e', v) && e.ticket != e'.ticket
    requires a.Approved? && a.voterId == v && a.redeemed.body.ticket == e.ticket && a.secret == e.secret
    requires log' == log + [id, e, Reverted(v)] && log'' == log' + [id', e'] + [a]
    ensures RedeemedWithOldTicket(log, log'', v)
  {}

  /** Single use per round is false of the code: from every reachable world in which a kiosk could check
      a voter in and a trusted device is connected, with any two different random tickets, there is a run
      that issues the first, times out, issues the second, and redeems the second round with the first. */
  lemma {:induction false} OldTicketPossible(
      cfg: Config, start: World, steps: seq<Step>, kiosk: Device, trusted: Device, p: Voter, idData: seq<byte>,
      bs: Bytes, bs': Bytes) returns (run: seq<Step>)
    requires Initial(cfg, start) && cfg.timeout >= 0 && Lengths(bs) && Lengths(bs') && bs.ticket != bs'.ticket
    requires var w := Exec(cfg, start, steps);
             && CanCheckIn(cfg, w, kiosk, p) && Connected(cfg, w, trusted, TrustedClient)
             && PinOnRoll(cfg, p.id, p.pin) && w.clock.wall + Wait(cfg) < TWO_64
    ensures var w, w' := Exec(cfg, start, steps), Exec(cfg, start, steps + run);
            && RedeemedWithOldTicket(w.log, w'.log, p.id) && HasStatus(w'.service.rounds, p.id, CheckedIn)
            && SecretSent(cfg, w', p.id, p.pin, Hex(bs.secret), [])
  {
    hide Exec; hide Inv; hide Hex; hide CanCheckIn; hide Connected; hide RedeemedWithOldTicket; hide OnFile;
    hide FindVoter; hide SecretSent; hide Initial;
    var w := Exec(cfg, start, steps);
    InvAlways(cfg, start, steps);
    var first := OneRoundTimedOut(cfg, start, w, kiosk, p, idData, bs);
    var w1 := Exec(cfg, w, first);
    StaysConnected(cfg, w, w1, trusted, TrustedClient);
    if Hex(bs'.ticket) == Hex(bs.ticket) { HexInjective(bs.ticket, bs'.ticket); }
    var second := OldTicketRedeems(cfg, start, w1, kiosk, trusted, p, idData, bs', Hex(bs.ticket), Hex(bs.secret));
    run := first + second;
    ExecAppend(cfg, w, first, second);
    ExecAppend(cfg, start, steps, run);
    var c, c' := RequestAt(kiosk, p, w.clock.wall, idData, bs), RequestAt(kiosk, p, w1.clock.wall, idData, bs');
    OldTicketInLog(w.log, w1.log, Exec(cfg, w1, second).log, IdConfirmed(c.body.verified.presented, p.id),
                   AcceptanceOf(kiosk, c, bs, w.clock), IdConfirmed(c'.body.verified.presented, p.id),
                   AcceptanceOf(kiosk, c', bs', w1.clock),
                   Approved(p.id, TicketOf(trusted, p.pin, w1.clock.wall, Hex(bs.ticket), []), trusted.key,
                            Hex(bs.secret), w1.clock), p.id);
  }
}
