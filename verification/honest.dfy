/** Honest runs complete: a voter on both rolls who goes through both phases in time is
    checked in, whatever other clients do before, between and after the messages. */
module Honest {
  import opened Text
  import opened Messages
  import opened Freshness
  import opened Rounds
  import opened Roll
  import opened Protocol
  import opened Effects
  import opened Invariants
  import opened Provenance
  import opened Timing
  import opened Theorems
  import TicketFile

  datatype Names = Names(first: string, middle: string, last: string)
  datatype Voter = Voter(id: uint32, names: Names, pin: uint32)

  /** A client device: the id and key of its certificate and its connection to the check-in service. */
  datatype Device = Device(clientId: uint32, key: PublicKey, endpoint: Endpoint)

  // ------------------------------------------------------------ what the client code sends

  /** `start_id_request_write`. */
  function IdRequestOf(dev: Device, names: Names, timestamp: uint64, idData: seq<byte>, bytes: seq<byte>)
    : VoterIdRequest
  {
    VoterIdRequest(VoterIdBody(dev.clientId, timestamp, names.last, names.middle, names.first, idData), bytes)
  }

  /** `start_checkin_request_write`: the voter is the one that the ID service named. */
  function CheckinOf(dev: Device, names: Names, timestamp: uint64, id: VerifiedVoterId, bytes: seq<byte>)
    : CheckinRequest
  {
    CheckinRequest(CheckinBody(dev.clientId, timestamp, names.last, names.first, names.middle, id.voterId, id), bytes)
  }

  /** `verify_ticket`. */
  function TicketOf(dev: Device, pin: uint32, timestamp: uint64, ticket: string, bytes: seq<byte>): TicketRequest {
    TicketRequest(TicketBody(dev.clientId, timestamp, ticket, pin), bytes)
  }

  // ----------------------------------------------------------------------- when it can work

  /** The device is connected with the key that the service has pinned for it. */
  ghost predicate Connected(cfg: Config, w: World, dev: Device, kind: ClientType) {
    && SentBy(w, dev.endpoint, dev.clientId, kind) && dev.endpoint in w.service.armed
    && dev.clientId in w.service.directory.verifiers && w.service.directory.verifiers[dev.clientId] == dev.key
    && dev.key != cfg.idKey && dev.key != cfg.serviceKey
  }

  /** The ID service knows the device's key and has the voter under these names, up to case. */
  ghost predicate Identifiable(cfg: Config, w: World, dev: Device, p: Voter) {
    && dev.clientId in w.idService.verifiers && w.idService.verifiers[dev.clientId] == dev.key
    && p.id != INVALID_VOTER_ID
    && NamesMatch(cfg.records, VoterIdBody(0, 0, p.names.last, p.names.middle, p.names.first, []), p.id)
  }

  predicate FreshAt(cfg: Config, w: World, timestamp: uint64) {
    Fresh(w.clock.wall, timestamp, cfg.freshness, cfg.absMin)
  }

  // ------------------------------------------------------------------------------- phase 1

  /** The ID service confirms a voter who is on its roll. */
  lemma IdServiceConfirms(cfg: Config, w: World, dev: Device, p: Voter, timestamp: uint64, idData: seq<byte>,
                          bytes: seq<byte>, beyond: seq<byte>, statement: seq<byte>)
    requires Identifiable(cfg, w, dev, p) && FreshAt(cfg, w, timestamp) && |beyond| >= 4
    requires Signed(dev.key, IdRequestBody(IdRequestOf(dev, p.names, timestamp, IdPrefix(p.id) + idData, bytes).body),
                    bytes) in w.signed
    ensures var r := IdRequestOf(dev, p.names, timestamp, IdPrefix(p.id) + idData, bytes);
            Next(cfg, w, IdMessage(r, beyond, statement)) ==
              w.(signed := w.signed + {Signed(cfg.idKey, StatementBody(r, p.id), statement)},
                 log := w.log + [IdConfirmed(r, p.id)])
  {
    MatchIdOfPrefix(p.id, idData, beyond);
  }

  /** The check-in request is the device's own and carries a statement of the ID service on its voter. */
  ghost predicate InOrder(cfg: Config, w: World, dev: Device, c: CheckinRequest) {
    var id := c.body.verified;
    && c.body.clientId == dev.clientId && c.body.voterId == id.voterId
    && Signed(cfg.idKey, StatementBody(id.presented, id.voterId), id.signature) in w.signed
    && Signed(dev.key, CheckinRequestBody(c.body), c.signature) in w.signed
  }

  /** The step brings the check-in service this request from the device; what is random has the right length. */
  predicate Carries(st: Step, dev: Device, c: CheckinRequest) {
    && st.Message? && st.endpoint == dev.endpoint && st.asCheckin == Ok(c)
    && |st.ticketBytes| == 16 && |st.secretBytes| == 32
  }

  ghost predicate OnFile(w: World, v: uint32, ticket: string, secret: string) {
    var file := TicketFile.Contents(w.service.ticketFile);
    ticket in file && file[ticket] == TicketFile.Entry(v, secret)
  }

  /** After Phase 1 the voter is pending, with a timer, and the ticket is on file. */
  ghost predicate Ticketed(w: World, v: uint32, ticket: string, secret: string, expiry: int) {
    && HasStatus(w.service.rounds, v, Pending)
    && v in w.service.rounds.timers && w.service.rounds.timers[v].expiry == expiry
    && OnFile(w, v, ticket, secret)
  }

  /** The signed reply to the kiosk repeats the names and brings the ticket. */
  ghost predicate TicketSent(cfg: Config, w: World, c: CheckinRequest, at: uint64, ticket: string, bytes: seq<byte>) {
    Signed(cfg.serviceKey, CheckinReply(AcceptedReply(c, at, ticket)), bytes) in w.signed
  }

  /** A request that is in order and fresh, for an eligible voter, is accepted. */
  lemma CheckinAccepted(cfg: Config, w: World, dev: Device, c: CheckinRequest, st: Step)
    requires TicketsOk(w.service) && KeysOk(cfg, w.service.directory) && Connected(cfg, w, dev, UntrustedClient)
    requires InOrder(cfg, w, dev, c) && Carries(st, dev, c)
    requires HasStatus(w.service.rounds, c.body.voterId, Eligible) && FreshAt(cfg, w, c.body.timestamp)
    ensures var w' := Next(cfg, w, st); var ticket, secret := Hex(st.ticketBytes), Hex(st.secretBytes);
            && Ticketed(w', c.body.voterId, ticket, secret, w.clock.steady + cfg.timeout)
            && TicketSent(cfg, w', c, w.clock.wall, ticket, st.bytes)
            && w'.log == w.log + [Accepted(c.body.voterId, c, dev.key, ticket, secret, w.clock)]
            && w'.service.directory == w.service.directory && w'.service.armed == w.service.armed
            && w'.clock == w.clock && w'.idService == w.idService
            && (forall x: Signed :: !IsReply(x.body) ==> (x in w'.signed <==> x in w.signed))
  {
    hide Hex; hide TicketFile.Contents; hide Fresh; hide KeysOk; hide TicketsOk;
    var w' := Next(cfg, w, st);
    var e := Accepted(c.body.voterId, c, dev.key, Hex(st.ticketBytes), Hex(st.secretBytes), w.clock);
    assert AcceptsNow(cfg, w, st, e);
    AcceptanceFrames(cfg, w, st, e);
  }

  lemma AcceptanceFrames(cfg: Config, w: World, st: Step, e: Event)
    requires TicketsOk(w.service) && KeysOk(cfg, w.service.directory)
    requires Enabled(cfg, w, st) && AcceptsNow(cfg, w, st, e)
    ensures var w' := Next(cfg, w, st);
            && Ticketed(w', e.voterId, e.ticket, e.secret, w.clock.steady + cfg.timeout)
            && TicketSent(cfg, w', e.request, w.clock.wall, e.ticket, st.bytes)
            && w'.log == w.log + [e]
            && w'.service.directory == w.service.directory && w'.service.armed == w.service.armed
            && w'.clock == w.clock && w'.idService == w.idService
            && (forall x: Signed :: !IsReply(x.body) ==> (x in w'.signed <==> x in w.signed))
  {
    hide Next; hide Validates; hide Hex; hide TicketFile.Contents; hide KeysOk; hide TicketsOk; hide Enabled;
    AcceptanceHappens(cfg, w, st, e);
    MessageFootprint(cfg, w, st);
    KeysKept(cfg, w, st);
    TicketsAfterIssue(cfg, w, Next(cfg, w, st), st, e);
  }

  // ------------------------------------------------------------------ whatever happens then

  /** The voter's round is still the one that expires at `expiry`, or somebody has completed it. */
  predicate Surviving(w: World, v: uint32, expiry: int) {
    || HasStatus(w.service.rounds, v, CheckedIn)
    || (HasStatus(w.service.rounds, v, Pending) && v in w.service.rounds.timers &&
        w.service.rounds.timers[v].expiry == expiry)
  }

  lemma SurvivingAfterPhase(cfg: Config, w: World, w': World, e: Event, v: uint32, expiry: int)
    requires Surviving(w, v, expiry) && Advances(cfg, w, w', e)
    requires e.Accepted? ==> HasStatus(w.service.rounds, e.voterId, Eligible)
    ensures Surviving(w', v, expiry)
  {}

  /** A round ends by being redeemed, or by its timeout once the time has come. */
  lemma SurvivesStep(cfg: Config, w: World, st: Step, v: uint32, expiry: int)
    requires VotersOk(cfg, w) && TimeOk(cfg, w) && Surviving(w, v, expiry)
    ensures var w' := Next(cfg, w, st);
            Surviving(w', v, expiry) || (expiry <= w.clock.steady && w'.log == w.log + [Reverted(v)])
  {
    if st.Message? {
      SurvivesMessage(cfg, w, st, v, expiry);
    } else if st.HandlerRuns? {
      RunHandlerEffect(w.service.rounds, st.handler);
      if Ends(w.service.rounds, st.handler) {
        assert EntryOk(w.service.rounds, w.service.rounds.handlers[st.handler].voterId);
      }
    }
  }

  lemma SurvivesMessage(cfg: Config, w: World, st: Step, v: uint32, expiry: int)
    requires st.Message? && Surviving(w, v, expiry)
    ensures Surviving(Next(cfg, w, st), v, expiry)
  {
    hide Next; hide Added; hide Advances; hide Validates; hide Confirms;
    MessageEffect(cfg, w, st);
    var added := Added(cfg, w, st);
    if added != [] { SurvivingAfterPhase(cfg, w, Next(cfg, w, st), added[0], v, expiry); }
  }

  lemma ClockForward(cfg: Config, w: World, st: Step)
    ensures w.clock.steady <= Next(cfg, w, st).clock.steady
  {
    if st.Message? { MessageFootprint(cfg, w, st); }
  }

  /** No acceptance added to the log after position `n` issues this ticket string again. */
  ghost predicate NotReissued(log: seq<Event>, n: nat, ticket: string) {
    forall k :: n <= k < |log| && log[k].Accepted? ==> log[k].ticket != ticket
  }

  /** A timeout of the voter has run since the log had `n` events. */
  ghost predicate RevertedSince(log: seq<Event>, n: nat, v: uint32) {
    exists k :: n <= k < |log| && log[k] == Reverted(v)
  }

  lemma OnFileStep(cfg: Config, w: World, st: Step, v: uint32, ticket: string, secret: string)
    requires TicketsOk(w.service) && OnFile(w, v, ticket, secret)
    requires NotReissued(Next(cfg, w, st).log, |w.log|, ticket)
    ensures OnFile(Next(cfg, w, st), v, ticket, secret)
  {
    if st.Message? { OnFileMessage(cfg, w, st, v, ticket, secret); }
  }

  lemma OnFileMessage(cfg: Config, w: World, st: Step, v: uint32, ticket: string, secret: string)
    requires st.Message? && TicketsOk(w.service) && OnFile(w, v, ticket, secret)
    requires NotReissued(Next(cfg, w, st).log, |w.log|, ticket)
    ensures OnFile(Next(cfg, w, st), v, ticket, secret)
  {
    hide Next; hide Added; hide Validates; hide Confirms; hide TicketsOk; hide TicketFile.Contents; hide Enabled;
    MessageEffect(cfg, w, st);
    var added := Added(cfg, w, st);
    if added != [] && added[0].Accepted? {
      assert Next(cfg, w, st).log[|w.log|] == added[0];
      TicketsAfterIssue(cfg, w, Next(cfg, w, st), st, added[0]);
    }
  }

  lemma {:induction false} LogGrows(cfg: Config, w: World, more: seq<Step>)
    ensures w.log <= Exec(cfg, w, more).log
  {
    if more == [] {
    } else {
      LogGrows(cfg, w, more[..|more| - 1]);
      StepEvents(cfg, Exec(cfg, w, more[..|more| - 1]), more[|more| - 1]);
    }
  }

  lemma {:induction false} SignedGrows(cfg: Config, start: World, w: World, more: seq<Step>)
    requires Inv(cfg, start, w)
    ensures w.signed <= Exec(cfg, w, more).signed
  {
    hide Next; hide SignaturesOk; hide KeysOk; hide EventsOk; hide VotersOk; hide TicketsOk;
    if more == [] {
    } else {
      var some := more[..|more| - 1];
      SignedGrows(cfg, start, w, some);
      InvExec(cfg, start, w, some);
      SignaturesKept(cfg, Exec(cfg, w, some), more[|more| - 1]);
    }
  }

  /** Whatever anybody does, the round stays open or is redeemed until its timeout runs, and that is
      not before its time. */
  lemma {:induction false} SurvivesRun(cfg: Config, start: World, w: World, more: seq<Step>, v: uint32, expiry: int)
    requires Inv(cfg, start, w) && Surviving(w, v, expiry)
    ensures var w' := Exec(cfg, w, more);
            Surviving(w', v, expiry) || (expiry <= w'.clock.steady && RevertedSince(w'.log, |w.log|, v))
  {
    hide Next; hide Surviving; hide KeysOk; hide EventsOk; hide SignaturesOk; hide TicketsOk;
    if more == [] {
    } else {
      var some, st := more[..|more| - 1], more[|more| - 1];
      var w1, w2 := Exec(cfg, w, some), Exec(cfg, w, more);
      ClockForward(cfg, w1, st);
      SurvivesRun(cfg, start, w, some, v, expiry);
      LogGrows(cfg, w, some);
      StepEvents(cfg, w1, st);
      if Surviving(w1, v, expiry) {
        InvExec(cfg, start, w, some);
        SurvivesStep(cfg, w1, st, v, expiry);
        if !Surviving(w2, v, expiry) { assert w2.log[|w1.log|] == Reverted(v); }
      } else {
        var k :| |w.log| <= k < |w1.log| && w1.log[k] == Reverted(v);
        assert w2.log[k] == Reverted(v);
      }
    }
  }

  lemma NotReissuedEarlier(log: seq<Event>, log': seq<Event>, n: nat, ticket: string)
    requires log <= log' && NotReissued(log', n, ticket)
    ensures NotReissued(log, n, ticket)
  {
    assert forall k :: 0 <= k < |log| ==> log[k] == log'[k];
  }

  /** A recorded ticket stays recorded with its voter and secret, whatever becomes of its round. */
  lemma {:induction false} TicketStaysOnFile(cfg: Config, start: World, w: World, more: seq<Step>, v: uint32,
                                             ticket: string, secret: string)
    requires Inv(cfg, start, w) && OnFile(w, v, ticket, secret)
    requires NotReissued(Exec(cfg, w, more).log, |w.log|, ticket)
    ensures OnFile(Exec(cfg, w, more), v, ticket, secret)
  {
    hide Next; hide OnFile; hide KeysOk; hide EventsOk; hide SignaturesOk; hide VotersOk; hide TicketsOk;
    if more == [] {
    } else {
      var some, st := more[..|more| - 1], more[|more| - 1];
      var w1 := Exec(cfg, w, some);
      LogGrows(cfg, w, some);
      StepEvents(cfg, w1, st);
      NotReissuedEarlier(w1.log, Exec(cfg, w, more).log, |w.log|, ticket);
      TicketStaysOnFile(cfg, start, w, some, v, ticket, secret);
      InvExec(cfg, start, w, some);
      OnFileStep(cfg, w1, st, v, ticket, secret);
    }
  }

  // ------------------------------------------------------------------------------- phase 2

  /** The voter's row in the check-in service's roll has the PIN as a canonical decimal. */
  predicate PinOnRoll(cfg: Config, v: uint32, pin: uint32) { PinOf(FindVoter(cfg.roll, v)) == Dec(pin) }

  /** The step brings the check-in service this ticket request from the device. */
  predicate Redeems(st: Step, dev: Device, r: TicketRequest) {
    && st.Message? && st.endpoint == dev.endpoint && st.asTicket == Ok(r)
    && |st.ticketBytes| == 16 && |st.secretBytes| == 32
  }

  /** The request is the device's own, fresh, and carries the voter's PIN. */
  ghost predicate TicketInOrder(cfg: Config, w: World, dev: Device, v: uint32, r: TicketRequest) {
    && r.body.clientId == dev.clientId && FreshAt(cfg, w, r.body.timestamp) && PinOnRoll(cfg, v, r.body.pin)
    && Signed(dev.key, TicketRequestBody(r.body), r.signature) in w.signed
  }

  ghost predicate SecretSent(cfg: Config, w: World, v: uint32, pin: uint32, secret: string, bytes: seq<byte>) {
    Signed(cfg.serviceKey, TicketReply(TicketAnswer(cfg, true, v, pin, secret)), bytes) in w.signed
  }

  /** A ticket request that is in order redeems an open round with a ticket on file under the voter. */
  lemma TicketApproved(cfg: Config, w: World, dev: Device, v: uint32, r: TicketRequest, st: Step, secret: string)
    requires VotersOk(cfg, w) && TimeOk(cfg, w) && TicketsOk(w.service)
    requires Connected(cfg, w, dev, TrustedClient) && TicketInOrder(cfg, w, dev, v, r) && Redeems(st, dev, r)
    requires v in w.service.rounds.timers && w.clock.steady <= w.service.rounds.timers[v].expiry
    requires OnFile(w, v, r.body.ticket, secret)
    ensures var w' := Next(cfg, w, st);
            && HasStatus(w'.service.rounds, v, CheckedIn) && SecretSent(cfg, w', v, r.body.pin, secret, st.bytes)
            && w'.log == w.log + [Approved(v, r, dev.key, secret, w.clock)]
  {
    hide VoterOk; hide FindVoter; hide Fresh; hide TicketsOk; hide TicketAnswer;
    RefreshedIsFile(w.service);
    var j := OpenRound(cfg, w, v);
    var e := Approved(v, r, dev.key, secret, w.clock);
    assert Confirms(cfg, w.service, w.clock, v, r.body.pin);
    assert ApprovesNow(cfg, w, st, e);
    ApprovalHappens(cfg, w, st, e);
    FinishKeepsValid(w.service.rounds, v);
  }

  // -------------------------------------------------------------------------- the whole visit

  /** Everything that belongs to one voter's visit: the devices, the times they read off their clocks,
      and the bytes of the signatures that they and the ID service make. */
  datatype Visit = Visit(kiosk: Device, trusted: Device, voter: Voter, idData: seq<byte>,
                         idTime: uint64, checkinTime: uint64, ticketTime: uint64,
                         idSignature: seq<byte>, statement: seq<byte>, checkinSignature: seq<byte>,
                         ticketSignature: seq<byte>)

  /** `check_in_voter` puts the voter id in front of the ID data. */
  function IdRequestIn(x: Visit): VoterIdRequest {
    IdRequestOf(x.kiosk, x.voter.names, x.idTime, IdPrefix(x.voter.id) + x.idData, x.idSignature)
  }

  /** What the ID service answers. */
  function StatementIn(x: Visit): VerifiedVoterId { VerifiedVoterId(IdRequestIn(x), x.voter.id, x.statement) }

  function CheckinIn(x: Visit): CheckinRequest {
    CheckinOf(x.kiosk, x.voter.names, x.checkinTime, StatementIn(x), x.checkinSignature)
  }

  function TicketIn(x: Visit, ticket: string): TicketRequest {
    TicketOf(x.trusted, x.voter.pin, x.ticketTime, ticket, x.ticketSignature)
  }

  /** Where in the run the steps of the visit are. */
  datatype Places = Places(signId: nat, sendId: nat, signCheckin: nat, sendCheckin: nat, signTicket: nat,
                           sendTicket: nat)

  /** The ticket that the kiosk is given. */
  function TicketOfVisit(steps: seq<Step>, at: Places): string
    requires at.sendCheckin < |steps| && steps[at.sendCheckin].Message?
  {
    Hex(steps[at.sendCheckin].ticketBytes)
  }

  function SecretOfVisit(steps: seq<Step>, at: Places): string
    requires at.sendCheckin < |steps| && steps[at.sendCheckin].Message?
  {
    Hex(steps[at.sendCheckin].secretBytes)
  }

  /** The steps of Phase 1 are in the run in their order, with any steps of anybody around them. */
  predicate IncludesPhase1(steps: seq<Step>, x: Visit, at: Places) {
    && at.signId < at.sendId < at.signCheckin < at.sendCheckin < |steps|
    && steps[at.signId] == ClientSigns(x.kiosk.key, IdRequestBody(IdRequestIn(x).body), x.idSignature)
    && steps[at.sendId].IdMessage? && |steps[at.sendId].beyond| >= 4
    && steps[at.sendId].request == IdRequestIn(x) && steps[at.sendId].bytes == x.statement
    && steps[at.signCheckin] == ClientSigns(x.kiosk.key, CheckinRequestBody(CheckinIn(x).body), x.checkinSignature)
    && Carries(steps[at.sendCheckin], x.kiosk, CheckinIn(x))
  }

  /** The trusted device redeems the ticket that the kiosk was given. */
  predicate IncludesPhase2(steps: seq<Step>, x: Visit, at: Places)
    requires at.sendCheckin < |steps| && steps[at.sendCheckin].Message?
  {
    var r := TicketIn(x, TicketOfVisit(steps, at));
    && at.sendCheckin < at.signTicket < at.sendTicket < |steps|
    && steps[at.signTicket] == ClientSigns(x.trusted.key, TicketRequestBody(r.body), x.ticketSignature)
    && Redeems(steps[at.sendTicket], x.trusted, r)
  }

  /** The world before step `k` of the run. */
  function WorldAt(cfg: Config, start: World, steps: seq<Step>, k: nat): World
    requires k <= |steps|
  {
    Exec(cfg, start, steps[..k])
  }

  /** When the ID request and the check-in request arrive, they are fresh, the kiosk is known and
      connected, and the voter is on the ID service's roll and eligible. */
  ghost predicate Phase1Possible(cfg: Config, start: World, steps: seq<Step>, x: Visit, at: Places)
    requires IncludesPhase1(steps, x, at)
  {
    var w, w' := WorldAt(cfg, start, steps, at.sendId), WorldAt(cfg, start, steps, at.sendCheckin);
    && Identifiable(cfg, w, x.kiosk, x.voter) && FreshAt(cfg, w, x.idTime)
    && Connected(cfg, w', x.kiosk, UntrustedClient) && FreshAt(cfg, w', x.checkinTime)
    && HasStatus(w'.service.rounds, x.voter.id, Eligible)
  }

  /** When the ticket request arrives, it is fresh, carries the voter's PIN and comes from a connected
      trusted device; the window is still open (at its very end, the timeout has not run yet), and
      nobody was given the same random ticket in between. */
  ghost predicate Phase2Possible(cfg: Config, start: World, steps: seq<Step>, x: Visit, at: Places)
    requires IncludesPhase1(steps, x, at) && IncludesPhase2(steps, x, at)
  {
    var w, n := WorldAt(cfg, start, steps, at.sendTicket), |WorldAt(cfg, start, steps, at.sendCheckin + 1).log|;
    var expiry := WorldAt(cfg, start, steps, at.sendCheckin).clock.steady + cfg.timeout;
    && Connected(cfg, w, x.trusted, TrustedClient) && FreshAt(cfg, w, x.ticketTime)
    && PinOnRoll(cfg, x.voter.id, x.voter.pin)
    && (w.clock.steady < expiry || (w.clock.steady == expiry && !RevertedSince(w.log, n, x.voter.id)))
    && NotReissued(w.log, n, TicketOfVisit(steps, at))
  }

  lemma StepAt(cfg: Config, start: World, steps: seq<Step>, k: nat)
    requires k < |steps|
    ensures WorldAt(cfg, start, steps, k + 1) == Next(cfg, WorldAt(cfg, start, steps, k), steps[k])
  {
    assert steps[..k + 1] == steps[..k] + [steps[k]];
    ExecOne(cfg, start, steps[..k], steps[k]);
  }

  lemma Between(cfg: Config, start: World, steps: seq<Step>, i: nat, j: nat)
    requires i <= j <= |steps|
    ensures WorldAt(cfg, start, steps, j) == Exec(cfg, WorldAt(cfg, start, steps, i), steps[i..j])
  {
    assert steps[..j] == steps[..i] + steps[i..j];
    ExecAppend(cfg, start, steps[..i], steps[i..j]);
  }

  /** A signature that the step at `i` makes is there at every later moment. */
  lemma SignedFrom(cfg: Config, start: World, steps: seq<Step>, i: nat, j: nat)
    requires Initial(cfg, start) && i <= j <= |steps|
    ensures WorldAt(cfg, start, steps, i).signed <= WorldAt(cfg, start, steps, j).signed
  {
    hide Exec;
    InvAlways(cfg, start, steps[..i]);
    Between(cfg, start, steps, i, j);
    SignedGrows(cfg, start, WorldAt(cfg, start, steps, i), steps[i..j]);
  }

  lemma ClientSignature(cfg: Config, start: World, steps: seq<Step>, i: nat, j: nat)
    requires Initial(cfg, start) && i < j <= |steps| && steps[i].ClientSigns?
    requires steps[i].key != cfg.idKey && steps[i].key != cfg.serviceKey
    ensures Signed(steps[i].key, steps[i].body, steps[i].bytes) in WorldAt(cfg, start, steps, j).signed
  {
    hide Exec;
    StepAt(cfg, start, steps, i);
    SignedFrom(cfg, start, steps, i + 1, j);
  }

  /** The ID service's statement reaches the kiosk, however long it takes. */
  lemma IdPhaseCompletes(cfg: Config, start: World, steps: seq<Step>, x: Visit, at: Places, j: nat)
    requires Initial(cfg, start) && IncludesPhase1(steps, x, at) && at.sendId < j <= |steps|
    requires var w := WorldAt(cfg, start, steps, at.sendId);
             Identifiable(cfg, w, x.kiosk, x.voter) && FreshAt(cfg, w, x.idTime)
    requires x.kiosk.key != cfg.idKey && x.kiosk.key != cfg.serviceKey
    ensures Signed(cfg.idKey, StatementBody(IdRequestIn(x), x.voter.id), x.statement)
            in WorldAt(cfg, start, steps, j).signed
  {
    hide Exec; hide Next; hide Fresh; hide NamesMatch;
    ClientSignature(cfg, start, steps, at.signId, at.sendId);
    IdServiceConfirms(cfg, WorldAt(cfg, start, steps, at.sendId), x.kiosk, x.voter, x.idTime, x.idData, x.idSignature,
                      steps[at.sendId].beyond, x.statement);
    StepAt(cfg, start, steps, at.sendId);
    SignedFrom(cfg, start, steps, at.sendId + 1, j);
  }

  /** Phase 1, with any steps of anybody before, between and after its own: the voter is then pending
      with the ticket on file, and the kiosk gets the ticket under the voter's names. */
  lemma {:induction false} Phase1Completes(cfg: Config, start: World, steps: seq<Step>, x: Visit, at: Places)
    requires Initial(cfg, start) && IncludesPhase1(steps, x, at) && Phase1Possible(cfg, start, steps, x, at)
    ensures var w, w' := WorldAt(cfg, start, steps, at.sendCheckin), WorldAt(cfg, start, steps, at.sendCheckin + 1);
            && Ticketed(w', x.voter.id, TicketOfVisit(steps, at), SecretOfVisit(steps, at),
                        w.clock.steady + cfg.timeout)
            && TicketSent(cfg, w', CheckinIn(x), w.clock.wall, TicketOfVisit(steps, at), steps[at.sendCheckin].bytes)
            && InOrder(cfg, w, x.kiosk, CheckinIn(x))
  {
    hide Exec; hide Next; hide Fresh; hide Hex; hide EventsOk; hide SignaturesOk; hide VotersOk; hide TicketsOk;
    hide KeysOk;
    hide Identifiable;
    var w := WorldAt(cfg, start, steps, at.sendCheckin);
    IdPhaseCompletes(cfg, start, steps, x, at, at.sendCheckin);
    ClientSignature(cfg, start, steps, at.signCheckin, at.sendCheckin);
    InvAlways(cfg, start, steps[..at.sendCheckin]);
    StepAt(cfg, start, steps, at.sendCheckin);
    CheckinAccepted(cfg, w, x.kiosk, CheckinIn(x), steps[at.sendCheckin]);
  }

  /** What is left of Phase 1 when the ticket request arrives. */
  lemma StillOpen(cfg: Config, start: World, steps: seq<Step>, i: nat, j: nat, v: uint32, ticket: string,
                  secret: string, expiry: int)
    requires Initial(cfg, start) && i <= j <= |steps|
    requires Ticketed(WorldAt(cfg, start, steps, i), v, ticket, secret, expiry)
    requires var w, n := WorldAt(cfg, start, steps, j), |WorldAt(cfg, start, steps, i).log|;
             && (w.clock.steady < expiry || !RevertedSince(w.log, n, v)) && NotReissued(w.log, n, ticket)
    ensures var w := WorldAt(cfg, start, steps, j); Surviving(w, v, expiry) && OnFile(w, v, ticket, secret)
  {
    hide Exec; hide OnFile; hide RevertedSince; hide NotReissued; hide EventsOk; hide SignaturesOk; hide VotersOk;
    var w := WorldAt(cfg, start, steps, i);
    InvAlways(cfg, start, steps[..i]);
    Between(cfg, start, steps, i, j);
    SurvivesRun(cfg, start, w, steps[i..j], v, expiry);
    TicketStaysOnFile(cfg, start, w, steps[i..j], v, ticket, secret);
  }

  lemma {:induction false} CheckedInStays(cfg: Config, start: World, steps: seq<Step>, i: nat, j: nat, v: uint32)
    requires Initial(cfg, start) && i <= j <= |steps|
    requires HasStatus(WorldAt(cfg, start, steps, i).service.rounds, v, CheckedIn)
    ensures HasStatus(WorldAt(cfg, start, steps, j).service.rounds, v, CheckedIn)
  {
    assert steps[..j] == steps[..i] + steps[i..j];
    CheckedInForever(cfg, start, steps[..i], steps[i..j], v);
  }

  /** In any run of the services, with any steps of anybody around and between the six steps of a visit:
      an eligible voter on both rolls whose messages arrive fresh and inside the window gets the ticket
      at the kiosk and is checked in by the trusted device, for good; and unless somebody else redeemed
      the round first, the trusted device is sent the secret that was issued with the ticket. */
  lemma {:induction false} HonestRunCompletes(cfg: Config, start: World, steps: seq<Step>, x: Visit, at: Places)
    requires Initial(cfg, start) && IncludesPhase1(steps, x, at) && IncludesPhase2(steps, x, at)
    requires Phase1Possible(cfg, start, steps, x, at) && Phase2Possible(cfg, start, steps, x, at)
    ensures var v, ticket, secret := x.voter.id, TicketOfVisit(steps, at), SecretOfVisit(steps, at);
            var w, w' := WorldAt(cfg, start, steps, at.sendCheckin), WorldAt(cfg, start, steps, at.sendCheckin + 1);
            var u, u' := WorldAt(cfg, start, steps, at.sendTicket), WorldAt(cfg, start, steps, at.sendTicket + 1);
            && Ticketed(w', v, ticket, secret, w.clock.steady + cfg.timeout)
            && TicketSent(cfg, w', CheckinIn(x), w.clock.wall, ticket, steps[at.sendCheckin].bytes)
            && (HasStatus(u.service.rounds, v, Pending) || HasStatus(u.service.rounds, v, CheckedIn))
            && (HasStatus(u.service.rounds, v, Pending) ==>
                  SecretSent(cfg, u', v, x.voter.pin, secret, steps[at.sendTicket].bytes))
            && HasStatus(Exec(cfg, start, steps).service.rounds, v, CheckedIn)
  {
    hide Exec; hide Next; hide Fresh; hide Hex; hide EventsOk; hide SignaturesOk; hide VotersOk; hide TicketsOk;
    hide KeysOk;
    hide TimeOk; hide Phase1Possible; hide FindVoter; hide OnFile; hide TicketSent; hide CheckinIn; hide InOrder;
    hide RevertedSince; hide NotReissued; hide Initial;
    var v, ticket, secret := x.voter.id, TicketOfVisit(steps, at), SecretOfVisit(steps, at);
    var expiry := WorldAt(cfg, start, steps, at.sendCheckin).clock.steady + cfg.timeout;
    var u := WorldAt(cfg, start, steps, at.sendTicket);
    Phase1Completes(cfg, start, steps, x, at);
    StillOpen(cfg, start, steps, at.sendCheckin + 1, at.sendTicket, v, ticket, secret, expiry);
    ClientSignature(cfg, start, steps, at.signTicket, at.sendTicket);
    InvAlways(cfg, start, steps[..at.sendTicket]);
    StepAt(cfg, start, steps, at.sendTicket);
    if HasStatus(u.service.rounds, v, CheckedIn) {
      CheckedInStays(cfg, start, steps, at.sendTicket, |steps|, v);
    } else {
      TicketApproved(cfg, u, x.trusted, v, TicketIn(x, ticket), steps[at.sendTicket], secret);
      CheckedInStays(cfg, start, steps, at.sendTicket + 1, |steps|, v);
    }
    assert steps[..|steps|] == steps;
  }
}
