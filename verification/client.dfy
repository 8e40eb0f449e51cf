/** The kiosk's and the trusted device's client: one request at a time, as a chain of
    asynchronous callbacks around one promise. */
module Client {
  import opened Text
  import opened Messages
  import opened Roll
  import opened Rounds
  import opened Protocol
  import opened Effects
  import opened Invariants
  import opened Provenance
  import opened Timing
  import opened Theorems
  import opened Honest
  import opened Scripts

  /** The operation whose completion the client waits for. `Crashed`: an exception left the network thread. */
  datatype Stage =
    | Idle
    | WritingIdRequest | ReadingIdReply | WritingCheckin | ReadingSize | ReadingCheckinReply
    | WritingTicket | ReadingTicketReply
    | Finished | Crashed

  /** A value given to the promise. */
  datatype Outcome = Outcome(success: bool, text: string)

  /** A message that the client has signed and begun to write. */
  datatype Write =
    | IdWrite(idRequest: VoterIdRequest)
    | CheckinWrite(checkin: CheckinRequest)
    | TicketWrite(ticket: TicketRequest)

  /** `outcomes` are all the values set, and `written` all the messages written, since the promise was
      last replaced; `names` are the voter's names as the caller gave them. */
  datatype State = State(stage: Stage, outcomes: seq<Outcome>, names: Names, written: seq<Write>)

  /** How an asynchronous operation completes; `Err` is text that does not parse. */
  datatype Completion =
    | IoFailed
    | Sent
    | IdReply(id: Result<VerifiedVoterId>)
    | SizeLine
    | CheckinReplyLine(reply: Result<CheckinResponse>)
    | TicketReplyLine(answer: Result<TicketResponse>)

  /** A completion together with the signatures that exist when it happens, the client's clock, and the
      bytes of the signature that the client makes then, if it makes one. */
  datatype Occurrence = Occurrence(completion: Completion, signed: set<Signed>, now: uint64, bytes: seq<byte>)

  /** The device, and the keys of the two services from the handshakes. */
  datatype Setup = Setup(device: Device, id: PublicKey, service: PublicKey)

  function SetValue(s: State, success: bool, text: string): State {
    s.(stage := Finished, outcomes := s.outcomes + [Outcome(success, text)])
  }

  /** The completion handler of the pending operation. */
  function React(my: Setup, s: State, o: Occurrence): State {
    var c := o.completion;
    match s.stage
    case WritingIdRequest =>
      if c.Sent? then s.(stage := ReadingIdReply)
      else if c.IoFailed? then SetValue(s, false, "Network error") else s
    case ReadingIdReply =>
      if c.IoFailed? then SetValue(s, false, "Network error")
      else if !c.IdReply? then s
      else if c.id.Err? then s.(stage := Crashed)
      else if Signed(my.id, StatementBody(c.id.value.presented, c.id.value.voterId), c.id.value.signature) in o.signed
      then s.(stage := WritingCheckin,
              written := s.written + [CheckinWrite(CheckinOf(my.device, s.names, o.now, c.id.value, o.bytes))])
      else SetValue(s, false, "Invalid signature")
    case WritingCheckin =>
      if c.Sent? then s.(stage := ReadingSize)
      else if c.IoFailed? then SetValue(s, false, "Network error") else s
    case ReadingSize =>
      if c.SizeLine? then s.(stage := ReadingCheckinReply)
      else if c.IoFailed? then SetValue(s, false, "Network error") else s
    case ReadingCheckinReply =>
      if c.IoFailed? then SetValue(s, false, "Network error")
      else if !c.CheckinReplyLine? then s
      else if c.reply.Err? then s.(stage := Crashed)
      else if Signed(my.service, CheckinReply(c.reply.value.body), c.reply.value.signature) !in o.signed
      then SetValue(s, false, "Invalid signature")
      else SetValue(s, c.reply.value.body.approved, if c.reply.value.body.approved then "" else "Rejected")
    case WritingTicket =>
      if c.Sent? then s.(stage := ReadingTicketReply)
      else if c.IoFailed? then SetValue(s, false, "Network error") else s
    case ReadingTicketReply =>
      if c.IoFailed? then SetValue(s, false, "Network error")
      else if !c.TicketReplyLine? then s
      else if c.answer.Err? then SetValue(s, false, "Error parsing server response")
      else if Signed(my.service, TicketReply(c.answer.value.body), c.answer.value.signature) !in o.signed
      then SetValue(s, false, "Invalid signature")
      else SetValue(s, c.answer.value.body.approved, c.answer.value.body.secret)
    case _ => s
  }

  function Run(my: Setup, s: State, os: seq<Occurrence>): State {
    if os == [] then s else React(my, Run(my, s, os[..|os| - 1]), os[|os| - 1])
  }

  // ------------------------------------------------------------------------- the promise

  /** `check_in_voter`, on ID data that already has the voter id in front, if it is to have one. */
  function CheckInStart(my: Setup, names: Names, idData: seq<byte>, now: uint64, bytes: seq<byte>): State {
    State(WritingIdRequest, [], names, [IdWrite(IdRequestOf(my.device, names, now, idData, bytes))])
  }

  /** `verify_ticket`; the names of an earlier request stay where they are. */
  function VerifyStart(my: Setup, names: Names, ticket: string, pin: uint32, now: uint64, bytes: seq<byte>): State {
    State(WritingTicket, [], names, [TicketWrite(TicketOf(my.device, pin, now, ticket, bytes))])
  }

  predicate Started(s: State) { s.outcomes == [] && (s.stage.WritingIdRequest? || s.stage.WritingTicket?) }

  /** The promise is set at most once, and it is set exactly when the chain has come to its end. */
  lemma {:induction false} SetAtMostOnce(my: Setup, start: State, os: seq<Occurrence>)
    requires Started(start)
    ensures var s := Run(my, start, os);
            !s.stage.Idle? && |s.outcomes| == if s.stage.Finished? then 1 else 0
  {
    if os == [] {
    } else {
      SetAtMostOnce(my, start, os[..|os| - 1]);
      StepSetsOnce(my, Run(my, start, os[..|os| - 1]), os[|os| - 1]);
    }
  }

  lemma StepSetsOnce(my: Setup, s: State, o: Occurrence)
    requires !s.stage.Idle? && |s.outcomes| == if s.stage.Finished? then 1 else 0
    ensures var s' := React(my, s, o);
            !s'.stage.Idle? && |s'.outcomes| == if s'.stage.Finished? then 1 else 0
  {}

  /** A completion of the operation that is pending, with text that parses where text is read. */
  predicate Fits(stage: Stage, c: Completion) {
    c.IoFailed? ||
    match stage
    case WritingIdRequest => c.Sent?
    case ReadingIdReply => c.IdReply? && c.id.Ok?
    case WritingCheckin => c.Sent?
    case ReadingSize => c.SizeLine?
    case ReadingCheckinReply => c.CheckinReplyLine? && c.reply.Ok?
    case WritingTicket => c.Sent?
    case ReadingTicketReply => c.TicketReplyLine?
    case _ => true
  }

  function Left(stage: Stage): nat {
    match stage
    case WritingIdRequest => 5
    case ReadingIdReply => 4
    case WritingCheckin => 3
    case ReadingSize => 2
    case ReadingCheckinReply => 1
    case WritingTicket => 2
    case ReadingTicketReply => 1
    case _ => 0
  }

  ghost predicate AllFit(my: Setup, start: State, os: seq<Occurrence>) {
    forall k :: 0 <= k < |os| ==> Fits(Run(my, start, os[..k]).stage, os[k].completion)
  }

  lemma StepProgresses(my: Setup, s: State, o: Occurrence)
    requires Fits(s.stage, o.completion) && !s.stage.Idle? && !s.stage.Crashed?
    ensures var s' := React(my, s, o);
            !s'.stage.Crashed? && (s'.stage.Finished? || Left(s'.stage) + 1 == Left(s.stage))
  {}

  lemma AllFitFront(my: Setup, start: State, os: seq<Occurrence>)
    requires os != [] && AllFit(my, start, os)
    ensures AllFit(my, start, os[..|os| - 1])
  {
    hide Run; hide Fits;
    var front := os[..|os| - 1];
    forall k | 0 <= k < |front| ensures Fits(Run(my, start, front[..k]).stage, front[k].completion) {
      assert front[..k] == os[..k];
    }
  }

  lemma {:induction false} Progresses(my: Setup, start: State, os: seq<Occurrence>)
    requires Started(start) && AllFit(my, start, os)
    ensures var s := Run(my, start, os);
            !s.stage.Crashed? && (s.stage.Finished? || Left(s.stage) + |os| == Left(start.stage))
  {
    hide React; hide Fits;
    if os == [] {
    } else {
      var front := os[..|os| - 1];
      AllFitFront(my, start, os);
      SetAtMostOnce(my, start, front);
      Progresses(my, start, front);
      assert Fits(Run(my, start, front).stage, os[|os| - 1].completion);
      StepProgresses(my, Run(my, start, front), os[|os| - 1]);
    }
  }

  /** When every operation completes and every text that is read parses, the promise has been set
      exactly once after at most five completions. */
  lemma {:induction false} SetExactlyOnce(my: Setup, start: State, os: seq<Occurrence>)
    requires Started(start) && AllFit(my, start, os) && |os| >= Left(start.stage)
    ensures Run(my, start, os).stage == Finished && |Run(my, start, os).outcomes| == 1
  {
    hide Run; hide AllFit;
    Progresses(my, start, os);
    SetAtMostOnce(my, start, os);
  }

  // ------------------------------------------------------------------- what success means

  /** The occurrence is a reply that the service signed and that approves. */
  predicate Approves(my: Setup, start: State, o: Occurrence, text: string) {
    var c := o.completion;
    if start.stage.WritingIdRequest? then
      && c.CheckinReplyLine? && c.reply.Ok? && c.reply.value.body.approved && text == ""
      && Signed(my.service, CheckinReply(c.reply.value.body), c.reply.value.signature) in o.signed
    else
      && c.TicketReplyLine? && c.answer.Ok? && c.answer.value.body.approved && text == c.answer.value.body.secret
      && Signed(my.service, TicketReply(c.answer.value.body), c.answer.value.signature) in o.signed
  }

  /** Each stage belongs to one of the two kinds of request. */
  predicate InFlow(start: State, stage: Stage) {
    if start.stage.WritingIdRequest? then !stage.WritingTicket? && !stage.ReadingTicketReply?
    else stage.WritingTicket? || stage.ReadingTicketReply? || stage.Finished?
  }

  lemma {:induction false} StaysInFlow(my: Setup, start: State, os: seq<Occurrence>)
    requires Started(start)
    ensures InFlow(start, Run(my, start, os).stage)
  {
    if os == [] {
    } else {
      StaysInFlow(my, start, os[..|os| - 1]);
    }
  }

  /** Success is reported only after an approving reply with a valid signature of the service. */
  lemma {:induction false} SuccessNeedsApproval(my: Setup, start: State, os: seq<Occurrence>) returns (k: nat)
    requires Started(start) && Run(my, start, os).outcomes != [] && Run(my, start, os).outcomes[0].success
    ensures k < |os| && Approves(my, start, os[k], Run(my, start, os).outcomes[0].text)
  {
    var front, last := os[..|os| - 1], os[|os| - 1];
    SetAtMostOnce(my, start, front);
    StaysInFlow(my, start, front);
    if Run(my, start, front).stage.Finished? {
      k := SuccessNeedsApproval(my, start, front);
    } else {
      k := |os| - 1;
    }
  }

  /** End to end: a kiosk that reports a successful check-in talked to a service that had accepted
      the voter named in the reply and issued the ticket in it; a trusted device that reports success
      and a secret talked to a service that had approved the voter named in the reply with that secret. */
  lemma {:induction false} SuccessIsLogged(
      cfg: Config, first: World, steps: seq<Step>, my: Setup, start: State, os: seq<Occurrence>)
    returns (k: nat)
    requires Initial(cfg, first) && Started(start) && my.service == cfg.serviceKey
    requires forall i :: 0 <= i < |os| ==> os[i].signed <= Exec(cfg, first, steps).signed
    requires Run(my, start, os).outcomes != [] && Run(my, start, os).outcomes[0].success
    ensures k < |os| && Approves(my, start, os[k], Run(my, start, os).outcomes[0].text)
    ensures var log := Exec(cfg, first, steps).log;
            if start.stage.WritingIdRequest?
            then var b := os[k].completion.reply.value.body;
                 exists e :: e in log && e.Accepted? && e.voterId == b.voterId && e.ticket == b.ticket &&
                             e.request.body.clientId == b.clientId
            else var b := os[k].completion.answer.value.body;
                 exists e :: e in log && e.Approved? && e.voterId == b.voterId && e.secret == b.secret
  {
    k := SuccessNeedsApproval(my, start, os);
    InvAlways(cfg, first, steps);
    var w := Exec(cfg, first, steps);
    if start.stage.WritingIdRequest? {
      var r := os[k].completion.reply.value;
      assert SignatureOk(cfg, w.log, Signed(cfg.serviceKey, CheckinReply(r.body), r.signature));
    } else {
      var r := os[k].completion.answer.value;
      assert SignatureOk(cfg, w.log, Signed(cfg.serviceKey, TicketReply(r.body), r.signature));
    }
  }

  /** No two acceptances drew the same random ticket. */
  ghost predicate TicketsApart(log: seq<Event>) {
    forall e, f :: e in log && f in log && e.Accepted? && f.Accepted? && e.ticket == f.ticket ==> e == f
  }

  /** Whose acceptance is it? The client does not compare the reply with its request, so it is that of
      the voter it asked for, or of any other given voter, if and only if the reply names that voter. */
  lemma {:induction false} SuccessIsAboutNamed(
      cfg: Config, first: World, steps: seq<Step>, my: Setup, start: State, os: seq<Occurrence>, v: uint32)
    returns (k: nat)
    requires Initial(cfg, first) && Started(start) && start.stage.WritingIdRequest? && my.service == cfg.serviceKey
    requires forall i :: 0 <= i < |os| ==> os[i].signed <= Exec(cfg, first, steps).signed
    requires Run(my, start, os).outcomes != [] && Run(my, start, os).outcomes[0].success
    requires TicketsApart(Exec(cfg, first, steps).log)
    ensures k < |os| && Approves(my, start, os[k], "")
    ensures var b := os[k].completion.reply.value.body;
            (exists e :: e in Exec(cfg, first, steps).log && AcceptedFor(e, v) && e.ticket == b.ticket)
            <==> v == b.voterId
  {
    hide Exec; hide Run;
    k := SuccessIsLogged(cfg, first, steps, my, start, os);
  }

  /** And it need not be the voter it asked for: from every reachable world in which some kiosk could
      check a voter in, there is a run after which any client that waits for a reply, for whomever it
      asked, reports success on that kiosk's reply, although nothing has happened to any other voter. */
  lemma {:induction false} SuccessForAnother(
      cfg: Config, first: World, steps: seq<Step>, dev: Device, p: Voter, idData: seq<byte>, bs: Bytes,
      my: Setup, waiting: State, asked: uint32)
    returns (run: seq<Step>, o: Occurrence)
    requires Initial(cfg, first) && CanCheckIn(cfg, Exec(cfg, first, steps), dev, p) && Lengths(bs)
    requires my.service == cfg.serviceKey && waiting.stage == ReadingCheckinReply && waiting.outcomes == []
    requires asked != p.id
    ensures var w, w' := Exec(cfg, first, steps), Exec(cfg, first, steps + run);
            && o.signed == w'.signed && React(my, waiting, o).outcomes == [Outcome(true, "")]
            && History(w'.log, asked) == History(w.log, asked)
  {
    hide Exec; hide Hex; hide Inv; hide Phase1; hide CanCheckIn; hide Ticketed; hide InOrder; hide History;
    var w := Exec(cfg, first, steps);
    var c := RequestAt(dev, p, w.clock.wall, idData, bs);
    run := Phase1(dev, c, bs);
    InvAlways(cfg, first, steps);
    KiosksReply(cfg, first, w, dev, p, idData, bs);
    ExecAppend(cfg, first, steps, run);
    var w' := Exec(cfg, first, steps + run);
    var b := AcceptedReply(c, w.clock.wall, Hex(bs.ticket));
    o := Occurrence(CheckinReplyLine(Ok(CheckinResponse(b, bs.reply))), w'.signed, 0, []);
    var id, e := IdConfirmed(c.body.verified.presented, p.id), AcceptanceOf(dev, c, bs, w.clock);
    assert w'.log == w.log + [id] + [e];
    HistoryAppend(w.log, id, asked);
    HistoryAppend(w.log + [id], e, asked);
  }

  lemma KiosksReply(cfg: Config, first: World, w: World, dev: Device, p: Voter, idData: seq<byte>, bs: Bytes)
    requires Inv(cfg, first, w) && CanCheckIn(cfg, w, dev, p) && Lengths(bs)
    ensures var c := RequestAt(dev, p, w.clock.wall, idData, bs); var w' := Exec(cfg, w, Phase1(dev, c, bs));
            && TicketSent(cfg, w', c, w.clock.wall, Hex(bs.ticket), bs.reply)
            && w'.log == w.log + [IdConfirmed(c.body.verified.presented, p.id), AcceptanceOf(dev, c, bs, w.clock)]
  {
    hide Exec; hide Phase1; hide EventsOk; hide SignaturesOk; hide VotersOk; hide KeysOk; hide TicketsOk;
    assert FreshAt(cfg, w, w.clock.wall);
    Phase1AtOnce(cfg, w, dev, p, w.clock.wall, idData, bs);
  }

  // --------------------------------------------------------------------------- honest devices

  /** What the kiosk of an honest visit sees: the ID service's statement, at which it reads its clock
      again and signs the check-in request, and then the check-in service's reply. */
  function KioskSees(cfg: Config, start: World, steps: seq<Step>, x: Visit, at: Places): seq<Occurrence>
    requires IncludesPhase1(steps, x, at)
  {
    var w, w' := WorldAt(cfg, start, steps, at.sendId + 1), WorldAt(cfg, start, steps, at.sendCheckin + 1);
    var b := AcceptedReply(CheckinIn(x), WorldAt(cfg, start, steps, at.sendCheckin).clock.wall,
                           TicketOfVisit(steps, at));
    [Occurrence(Sent, w.signed, 0, []),
     Occurrence(IdReply(Ok(StatementIn(x))), w.signed, x.checkinTime, x.checkinSignature),
     Occurrence(Sent, w'.signed, 0, []),
     Occurrence(SizeLine, w'.signed, 0, []),
     Occurrence(CheckinReplyLine(Ok(CheckinResponse(b, steps[at.sendCheckin].bytes))), w'.signed, 0, [])]
  }

  function TrustedSees(cfg: Config, start: World, steps: seq<Step>, x: Visit, at: Places): seq<Occurrence>
    requires IncludesPhase1(steps, x, at) && IncludesPhase2(steps, x, at)
  {
    var w := WorldAt(cfg, start, steps, at.sendTicket + 1);
    var b := TicketAnswer(cfg, true, x.voter.id, x.voter.pin, SecretOfVisit(steps, at));
    [Occurrence(Sent, w.signed, 0, []),
     Occurrence(TicketReplyLine(Ok(TicketResponse(b, steps[at.sendTicket].bytes))), w.signed, 0, [])]
  }

  lemma RunStep(my: Setup, s: State, os: seq<Occurrence>, k: nat)
    requires k < |os|
    ensures Run(my, s, os[..k + 1]) == React(my, Run(my, s, os[..k]), os[k])
  {
    assert os[..k + 1][..k] == os[..k];
  }

  lemma KioskRuns(my: Setup, s: State, os: seq<Occurrence>, id: VerifiedVoterId, b: CheckinReplyBody, bytes: seq<byte>)
    requires s.stage == WritingIdRequest && s.outcomes == [] && |os| == 5
    requires os[0].completion == Sent && os[1].completion == IdReply(Ok(id)) && os[2].completion == Sent
    requires os[3].completion == SizeLine && os[4].completion == CheckinReplyLine(Ok(CheckinResponse(b, bytes)))
    requires Signed(my.id, StatementBody(id.presented, id.voterId), id.signature) in os[1].signed
    requires Signed(my.service, CheckinReply(b), bytes) in os[4].signed && b.approved
    ensures Run(my, s, os) == State(Finished, [Outcome(true, "")], s.names,
              s.written + [CheckinWrite(CheckinOf(my.device, s.names, os[1].now, id, os[1].bytes))])
  {
    assert os[..5] == os && os[..0] == [];
    RunStep(my, s, os, 0);
    RunStep(my, s, os, 1);
    RunStep(my, s, os, 2);
    RunStep(my, s, os, 3);
    RunStep(my, s, os, 4);
  }

  lemma TrustedRuns(my: Setup, s: State, os: seq<Occurrence>, b: TicketReplyBody, bytes: seq<byte>)
    requires s.stage == WritingTicket && s.outcomes == [] && |os| == 2
    requires os[0].completion == Sent && os[1].completion == TicketReplyLine(Ok(TicketResponse(b, bytes)))
    requires Signed(my.service, TicketReply(b), bytes) in os[1].signed && b.approved
    ensures Run(my, s, os) == State(Finished, [Outcome(true, b.secret)], s.names, s.written)
  {
    assert os[..2] == os && os[..0] == [];
    RunStep(my, s, os, 0);
    RunStep(my, s, os, 1);
  }

  lemma AnswerHasSecret(cfg: Config, v: uint32, pin: uint32, secret: string)
    ensures TicketAnswer(cfg, true, v, pin, secret).approved && TicketAnswer(cfg, true, v, pin, secret).secret == secret
  {}

  /** The devices' side of `HonestRunCompletes`: the kiosk's client writes exactly the two requests of the
      visit and sets its promise to success; the trusted device's client writes the ticket request and, if
      the round was still open, sets its promise to success with the secret issued with the ticket. */
  lemma {:induction false} HonestDevicesSucceed(
      cfg: Config, start: World, steps: seq<Step>, x: Visit, at: Places, before: Names)
    requires Initial(cfg, start) && IncludesPhase1(steps, x, at) && IncludesPhase2(steps, x, at)
    requires Phase1Possible(cfg, start, steps, x, at) && Phase2Possible(cfg, start, steps, x, at)
    ensures var kiosk := Setup(x.kiosk, cfg.idKey, cfg.serviceKey);
            var trusted := Setup(x.trusted, cfg.idKey, cfg.serviceKey);
            var ticket := TicketOfVisit(steps, at);
            var k := CheckInStart(kiosk, x.voter.names, IdPrefix(x.voter.id) + x.idData, x.idTime, x.idSignature);
            var t := VerifyStart(trusted, before, ticket, x.voter.pin, x.ticketTime, x.ticketSignature);
            && Run(kiosk, k, KioskSees(cfg, start, steps, x, at)) ==
                 State(Finished, [Outcome(true, "")], x.voter.names,
                       [IdWrite(IdRequestIn(x)), CheckinWrite(CheckinIn(x))])
            && (HasStatus(WorldAt(cfg, start, steps, at.sendTicket).service.rounds, x.voter.id, Pending) ==>
                  Run(trusted, t, TrustedSees(cfg, start, steps, x, at)) ==
                    State(Finished, [Outcome(true, SecretOfVisit(steps, at))], before,
                          [TicketWrite(TicketIn(x, ticket))]))
  {
    hide Exec; hide Run; hide Hex; hide Initial; hide Phase1Possible; hide Phase2Possible; hide Ticketed;
    hide TicketSent;
    hide SecretSent; hide CheckInStart; hide VerifyStart; hide KioskSees; hide TrustedSees; hide CheckinIn;
    hide TicketIn;
    HonestRunCompletes(cfg, start, steps, x, at);
    HonestKiosk(cfg, start, steps, x, at);
    if HasStatus(WorldAt(cfg, start, steps, at.sendTicket).service.rounds, x.voter.id, Pending) {
      HonestTrusted(cfg, start, steps, x, at, before);
    }
  }

  lemma HonestKiosk(cfg: Config, start: World, steps: seq<Step>, x: Visit, at: Places)
    requires Initial(cfg, start) && IncludesPhase1(steps, x, at) && Phase1Possible(cfg, start, steps, x, at)
    requires TicketSent(cfg, WorldAt(cfg, start, steps, at.sendCheckin + 1), CheckinIn(x),
                        WorldAt(cfg, start, steps, at.sendCheckin).clock.wall, TicketOfVisit(steps, at),
                        steps[at.sendCheckin].bytes)
    ensures var kiosk := Setup(x.kiosk, cfg.idKey, cfg.serviceKey);
            var k := CheckInStart(kiosk, x.voter.names, IdPrefix(x.voter.id) + x.idData, x.idTime, x.idSignature);
            Run(kiosk, k, KioskSees(cfg, start, steps, x, at)) ==
              State(Finished, [Outcome(true, "")], x.voter.names, [IdWrite(IdRequestIn(x)), CheckinWrite(CheckinIn(x))])
  {
    hide Exec; hide Run; hide Hex; hide Initial; hide FreshAt; hide IdPrefix; hide React; hide NamesMatch;
    var kiosk := Setup(x.kiosk, cfg.idKey, cfg.serviceKey);
    IdPhaseCompletes(cfg, start, steps, x, at, at.sendId + 1);
    var os := KioskSees(cfg, start, steps, x, at);
    KioskRuns(kiosk, CheckInStart(kiosk, x.voter.names, IdPrefix(x.voter.id) + x.idData, x.idTime, x.idSignature), os,
              StatementIn(x), os[4].completion.reply.value.body, steps[at.sendCheckin].bytes);
  }

  lemma HonestTrusted(cfg: Config, start: World, steps: seq<Step>, x: Visit, at: Places, before: Names)
    requires IncludesPhase1(steps, x, at) && IncludesPhase2(steps, x, at)
    requires SecretSent(cfg, WorldAt(cfg, start, steps, at.sendTicket + 1), x.voter.id, x.voter.pin,
                        SecretOfVisit(steps, at), steps[at.sendTicket].bytes)
    ensures var trusted := Setup(x.trusted, cfg.idKey, cfg.serviceKey); var ticket := TicketOfVisit(steps, at);
            Run(trusted, VerifyStart(trusted, before, ticket, x.voter.pin, x.ticketTime, x.ticketSignature),
                TrustedSees(cfg, start, steps, x, at)) ==
              State(Finished, [Outcome(true, SecretOfVisit(steps, at))], before, [TicketWrite(TicketIn(x, ticket))])
  {
    hide Exec; hide Run; hide Hex; hide React; hide TicketAnswer; hide CheckinIn;
    var trusted, secret := Setup(x.trusted, cfg.idKey, cfg.serviceKey), SecretOfVisit(steps, at);
    AnswerHasSecret(cfg, x.voter.id, x.voter.pin, secret);
    TrustedRuns(trusted, VerifyStart(trusted, before, TicketOfVisit(steps, at), x.voter.pin, x.ticketTime,
                                     x.ticketSignature),
                TrustedSees(cfg, start, steps, x, at), TicketAnswer(cfg, true, x.voter.id, x.voter.pin, secret),
                steps[at.sendTicket].bytes);
  }

  // --------------------------------------------------------------------------- the object

  class PollbookClient {
    var stage: Stage
    var outcomes: seq<Outcome>
    var written: seq<Write>
    var checkinConnected: bool
    var idConnected: bool
    var names: Names
    const my: Setup

    ghost function Abstract(): State reads this { State(stage, outcomes, names, written) }

    constructor (my: Setup)
      ensures Abstract() == State(Idle, [], Names("", "", ""), []) && this.my == my && !checkinConnected && !idConnected
    {
      stage, outcomes, written, names := Idle, [], [], Names("", "", "");
      checkinConnected, idConnected := false, false;
      this.my := my;
    }

    method Connect()
      modifies this`checkinConnected, this`idConnected
      ensures checkinConnected && idConnected
    {
      checkinConnected, idConnected := true, true;
    }

    /** `check_in_voter` on ID data: throws when not connected; otherwise there is a new promise, and the
        signed ID request with the names and the data is being written. */
    method CheckInVoter(first: string, middle: string, last: string, idData: seq<byte>, now: uint64, bytes: seq<byte>)
      returns (thrown: bool)
      modifies this`stage, this`outcomes, this`names, this`written
      ensures thrown == !(checkinConnected && idConnected)
      ensures Abstract() == if thrown then old(Abstract())
                            else CheckInStart(my, Names(first, middle, last), idData, now, bytes)
    {
      if !checkinConnected || !idConnected { return true; }
      outcomes, written := [], [];
      names := Names(first, middle, last);
      var body := VoterIdBody(my.device.clientId, now, last, middle, first, idData);
      written := written + [IdWrite(VoterIdRequest(body, bytes))];
      stage := WritingIdRequest;
      return false;
    }

    /** The overload with the voter id, which copies the id's four bytes in front of the data. */
    method CheckInVoterById(first: string, middle: string, last: string, id: uint32, idData: seq<byte>, now: uint64,
                            bytes: seq<byte>) returns (thrown: bool)
      modifies this`stage, this`outcomes, this`names, this`written
      ensures thrown == !(checkinConnected && idConnected)
      ensures Abstract() == if thrown then old(Abstract())
                            else CheckInStart(my, Names(first, middle, last), IdPrefix(id) + idData, now, bytes)
    {
      thrown := CheckInVoter(first, middle, last, IdPrefix(id) + idData, now, bytes);
    }

    /** `verify_ticket`: throws when not connected; otherwise there is a new promise, and the signed
        request with the ticket and the PIN is being written. */
    method VerifyTicket(ticket: string, pin: uint32, now: uint64, bytes: seq<byte>) returns (thrown: bool)
      modifies this`stage, this`outcomes, this`written
      ensures thrown == !checkinConnected
      ensures Abstract() == if thrown then old(Abstract()) else VerifyStart(my, names, ticket, pin, now, bytes)
    {
      if !checkinConnected { return true; }
      outcomes := [];
      written := [TicketWrite(TicketRequest(TicketBody(my.device.clientId, now, ticket, pin), bytes))];
      stage := WritingTicket;
      return false;
    }

    method Set(success: bool, text: string)
      modifies this`stage, this`outcomes
      ensures Abstract() == SetValue(old(Abstract()), success, text)
    {
      outcomes := outcomes + [Outcome(success, text)];
      stage := Finished;
    }

    /** The write callbacks. */
    method OnWritten(ok: bool)
      requires stage.WritingIdRequest? || stage.WritingCheckin? || stage.WritingTicket?
      modifies this`stage, this`outcomes
      ensures Abstract() == React(my, old(Abstract()), Occurrence(if ok then Sent else IoFailed, {}, 0, []))
    {
      if !ok {
        Set(false, "Network error");
      } else {
        match stage
        case WritingIdRequest => stage := ReadingIdReply;
        case WritingCheckin => stage := ReadingSize;
        case WritingTicket => stage := ReadingTicketReply;
      }
    }

    /** Any failed read. */
    method OnReadFailed()
      requires stage.ReadingIdReply? || stage.ReadingSize? || stage.ReadingCheckinReply? || stage.ReadingTicketReply?
      modifies this`stage, this`outcomes
      ensures Abstract() == React(my, old(Abstract()), Occurrence(IoFailed, {}, 0, []))
    {
      Set(false, "Network error");
    }

    /** `handle_id_response`, after the line has been parsed: with a verified statement the check-in
        request, dated anew, is signed and written. */
    method OnIdReply(id: Result<VerifiedVoterId>, signed: set<Signed>, now: uint64, bytes: seq<byte>)
      requires stage.ReadingIdReply?
      modifies this`stage, this`outcomes, this`written
      ensures Abstract() == React(my, old(Abstract()), Occurrence(IdReply(id), signed, now, bytes))
    {
      if id.Err? {
        stage := Crashed;
        return;
      }
      var verified := Signed(my.id, StatementBody(id.value.presented, id.value.voterId), id.value.signature) in signed;
      if verified {
        var body := CheckinBody(my.device.clientId, now, names.last, names.first, names.middle, id.value.voterId,
                                id.value);
        written := written + [CheckinWrite(CheckinRequest(body, bytes))];
        stage := WritingCheckin;
      } else {
        Set(false, "Invalid signature");
      }
    }

    method OnSizeLine()
      requires stage.ReadingSize?
      modifies this`stage
      ensures Abstract() == React(my, old(Abstract()), Occurrence(SizeLine, {}, 0, []))
    {
      stage := ReadingCheckinReply;
    }

    /** `handle_checkin_response`. */
    method OnCheckinReply(reply: Result<CheckinResponse>, signed: set<Signed>)
      requires stage.ReadingCheckinReply?
      modifies this`stage, this`outcomes
      ensures Abstract() == React(my, old(Abstract()), Occurrence(CheckinReplyLine(reply), signed, 0, []))
    {
      if reply.Err? {
        stage := Crashed;
        return;
      }
      var verified := Signed(my.service, CheckinReply(reply.value.body), reply.value.signature) in signed;
      if !verified {
        Set(false, "Invalid signature");
      } else if reply.value.body.approved {
        Set(true, "");
      } else {
        Set(false, "Rejected");
      }
    }

    /** The callback of `start_verify_ticket_response_read`; parse errors are caught here. */
    method OnTicketReply(answer: Result<TicketResponse>, signed: set<Signed>)
      requires stage.ReadingTicketReply?
      modifies this`stage, this`outcomes
      ensures Abstract() == React(my, old(Abstract()), Occurrence(TicketReplyLine(answer), signed, 0, []))
    {
      if answer.Err? {
        Set(false, "Error parsing server response");
        return;
      }
      var verified := Signed(my.service, TicketReply(answer.value.body), answer.value.signature) in signed;
      if verified {
        if answer.value.body.approved {
          Set(true, answer.value.body.secret);
        } else {
          Set(false, answer.value.body.secret);
        }
      } else {
        Set(false, "Invalid signature");
      }
    }
  }
}
