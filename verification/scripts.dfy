/** Short runs that other results are built from: a Phase 1 at one clock reading, and a timeout. */
module Scripts {
  import opened Text
  import opened Messages
  import opened Freshness
  import opened Rounds
  import opened Roll
  import opened Protocol
  import opened Effects
  import opened Invariants
  import opened Timing
  import opened Theorems
  import opened Honest

  /** The bytes that are not the device's to choose: signatures, and what lies beyond the ID data. */
  datatype Bytes = Bytes(idRequest: seq<byte>, beyond: seq<byte>, statement: seq<byte>, checkin: seq<byte>,
                         ticket: seq<byte>, secret: seq<byte>, reply: seq<byte>)

  predicate Lengths(bs: Bytes) { |bs.beyond| >= 4 && |bs.ticket| == 16 && |bs.secret| == 32 }

  /** The check-in request that a kiosk builds when all is signed at one clock reading. */
  function RequestAt(dev: Device, p: Voter, timestamp: uint64, idData: seq<byte>, bs: Bytes): CheckinRequest {
    var r := IdRequestOf(dev, p.names, timestamp, IdPrefix(p.id) + idData, bs.idRequest);
    CheckinOf(dev, p.names, timestamp, VerifiedVoterId(r, p.id, bs.statement), bs.checkin)
  }

  function CheckinStep(dev: Device, c: CheckinRequest, bs: Bytes): Step {
    Message(dev.endpoint, Ok(c), Err, bs.ticket, bs.secret, bs.reply)
  }

  /** The device has the voter's ID confirmed and sends the check-in request. */
  function Phase1(dev: Device, c: CheckinRequest, bs: Bytes): seq<Step> {
    var r := c.body.verified.presented;
    [ClientSigns(dev.key, IdRequestBody(r.body), bs.idRequest),
     IdMessage(r, bs.beyond, bs.statement),
     ClientSigns(dev.key, CheckinRequestBody(c.body), bs.checkin),
     CheckinStep(dev, c, bs)]
  }

  /** A kiosk that could check the voter in now. */
  ghost predicate CanCheckIn(cfg: Config, w: World, dev: Device, p: Voter) {
    && Connected(cfg, w, dev, UntrustedClient) && Identifiable(cfg, w, dev, p)
    && HasStatus(w.service.rounds, p.id, Eligible)
  }

  function AcceptanceOf(dev: Device, c: CheckinRequest, bs: Bytes, at: Clock): Event {
    Accepted(c.body.voterId, c, dev.key, Hex(bs.ticket), Hex(bs.secret), at)
  }

  /** Clients, keys and the ID service are as they were, and no read has been disarmed. */
  predicate SameClients(w: World, w': World) {
    w'.service.directory == w.service.directory && w'.service.armed == w.service.armed && w'.idService == w.idService
  }

  ghost predicate Phase1Done(cfg: Config, w: World, w': World, dev: Device, c: CheckinRequest, bs: Bytes) {
    && Ticketed(w', c.body.voterId, Hex(bs.ticket), Hex(bs.secret), w.clock.steady + cfg.timeout)
    && InOrder(cfg, w', dev, c) && SameClients(w, w') && w'.clock == w.clock
    && TicketSent(cfg, w', c, w.clock.wall, Hex(bs.ticket), bs.reply)
    && w'.log == w.log + [IdConfirmed(c.body.verified.presented, c.body.voterId), AcceptanceOf(dev, c, bs, w.clock)]
  }

  /** Before the check-in request is sent: the ID is confirmed, the request is signed, nothing else has changed. */
  lemma Phase1Prepared(cfg: Config, w: World, dev: Device, p: Voter, timestamp: uint64, idData: seq<byte>, bs: Bytes)
    requires Connected(cfg, w, dev, UntrustedClient) && Identifiable(cfg, w, dev, p)
    requires FreshAt(cfg, w, timestamp) && |bs.beyond| >= 4
    ensures var c := RequestAt(dev, p, timestamp, idData, bs);
            var w3 := Exec(cfg, w, Phase1(dev, c, bs)[..3]);
            && w3 == w.(signed := w3.signed, log := w.log + [IdConfirmed(c.body.verified.presented, p.id)])
            && InOrder(cfg, w3, dev, c)
  {
    hide Fresh; hide NamesMatch;
    var steps := Phase1(dev, RequestAt(dev, p, timestamp, idData, bs), bs);
    assert steps[..1] == [] + [steps[0]] && steps[..2] == steps[..1] + [steps[1]];
    assert steps[..3] == steps[..2] + [steps[2]];
    ExecOne(cfg, w, [], steps[0]);
    ExecOne(cfg, w, steps[..1], steps[1]);
    ExecOne(cfg, w, steps[..2], steps[2]);
    IdServiceConfirms(cfg, Exec(cfg, w, steps[..1]), dev, p, timestamp, idData, bs.idRequest, bs.beyond, bs.statement);
  }

  lemma {:induction false} Phase1AtOnce(
      cfg: Config, w: World, dev: Device, p: Voter, timestamp: uint64, idData: seq<byte>, bs: Bytes)
    requires TicketsOk(w.service) && KeysOk(cfg, w.service.directory) && CanCheckIn(cfg, w, dev, p)
    requires FreshAt(cfg, w, timestamp) && Lengths(bs)
    ensures var c := RequestAt(dev, p, timestamp, idData, bs);
            Phase1Done(cfg, w, Exec(cfg, w, Phase1(dev, c, bs)), dev, c, bs)
  {
    hide Next; hide Fresh; hide Hex; hide Exec; hide Identifiable; hide Ticketed;
    var c := RequestAt(dev, p, timestamp, idData, bs);
    var steps := Phase1(dev, c, bs);
    var w3 := Exec(cfg, w, steps[..3]);
    Phase1Prepared(cfg, w, dev, p, timestamp, idData, bs);
    assert steps == steps[..3] + [steps[3]];
    ExecOne(cfg, w, steps[..3], steps[3]);
    CheckinAccepted(cfg, w3, dev, c, steps[3]);
    var id, e := IdConfirmed(c.body.verified.presented, p.id), AcceptanceOf(dev, c, bs, w.clock);
    assert w.log + [id] + [e] == w.log + [id, e];
  }

  // ------------------------------------------------------------------------------ a timeout

  /** How long the timer keeps the voter pending. */
  function Wait(cfg: Config): nat { if cfg.timeout < 0 then 0 else cfg.timeout }

  function Later(cfg: Config, c: Clock): Clock
    requires c.wall + Wait(cfg) < TWO_64
  {
    Clock(c.wall + Wait(cfg), c.steady + Wait(cfg))
  }

  /** Time passes until the timer with this id has run out, and its handler runs. */
  function TimeOut(cfg: Config, w: World, h: nat): seq<Step>
    requires w.clock.wall + Wait(cfg) < TWO_64
  {
    [Tick(Wait(cfg), w.clock.wall + Wait(cfg)), TimerExpires(h), HandlerRuns(h)]
  }

  lemma ExecThree(cfg: Config, w: World, steps: seq<Step>)
    requires |steps| == 3
    ensures Exec(cfg, w, steps) == Next(cfg, Next(cfg, Next(cfg, w, steps[0]), steps[1]), steps[2])
  {
    hide Next;
    assert steps[..1] == [] + [steps[0]] && steps[..2] == steps[..1] + [steps[1]] && steps == steps[..2] + [steps[2]];
    ExecOne(cfg, w, [], steps[0]);
    ExecOne(cfg, w, steps[..1], steps[1]);
    ExecOne(cfg, w, steps[..2], steps[2]);
  }

  lemma RoundTimesOut(r: Rounds, v: uint32, now: int)
    requires Valid(r) && v in r.timers && r.timers[v].expiry <= now
    ensures var h := r.timers[v].id; var q := Expire(r, h, now);
            && Ends(q, h) && q.handlers[h].voterId == v
            && HasStatus(RunHandler(q, h), v, Eligible)
  {
    var h := r.timers[v].id;
    assert EntryOk(r, v);
    ExpireKeepsValid(r, h, now);
    RunHandlerEffect(Expire(r, h, now), h);
  }

  lemma TimesOut(cfg: Config, w: World, v: uint32)
    requires Valid(w.service.rounds) && v in w.service.rounds.timers && w.clock.wall + Wait(cfg) < TWO_64
    requires w.service.rounds.timers[v].expiry <= w.clock.steady + Wait(cfg)
    ensures var w' := Exec(cfg, w, TimeOut(cfg, w, w.service.rounds.timers[v].id));
            && HasStatus(w'.service.rounds, v, Eligible) && w'.clock == Later(cfg, w.clock)
            && w'.log == w.log + [Reverted(v)] && SameClients(w, w') && w'.signed == w.signed
            && w'.service.ticketFile == w.service.ticketFile
  {
    hide Exec; hide Expire; hide RunHandler; hide Valid; hide Ends;
    var h := w.service.rounds.timers[v].id;
    RoundTimesOut(w.service.rounds, v, w.clock.steady + Wait(cfg));
    ExecThree(cfg, w, TimeOut(cfg, w, h));
  }

  /** A round that began now has run out after the wait. */
  lemma RoundRunsOut(cfg: Config, w: World, w': World, dev: Device, c: CheckinRequest, bs: Bytes)
    requires Phase1Done(cfg, w, w', dev, c, bs)
    ensures var v := c.body.voterId;
            && v in w'.service.rounds.timers
            && w'.service.rounds.timers[v].expiry <= w'.clock.steady + Wait(cfg)
            && w'.clock == w.clock && InOrder(cfg, w', dev, c) && SameClients(w, w')
            && OnFile(w', v, Hex(bs.ticket), Hex(bs.secret))
  {
    hide InOrder; hide OnFile; hide Hex; hide TicketSent;
  }
}
