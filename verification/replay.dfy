/** The replay bound is exact: with a timeout of at most two freshness intervals there
    is a run in which one check-in request is accepted twice. */
module Replay {
  import opened Text
  import opened Messages
  import opened Freshness
  import opened Rounds
  import opened Protocol
  import opened Effects
  import opened Invariants
  import opened Provenance
  import opened Timing
  import opened Theorems
  import opened Honest
  import opened Scripts

  /** After its round has timed out, a repeated request that is still fresh is accepted again. */
  lemma AcceptedAgain(cfg: Config, start: World, w: World, dev: Device, c: CheckinRequest, bs: Bytes)
    returns (run: seq<Step>)
    requires Inv(cfg, start, w) && Lengths(bs) && w.clock.wall + Wait(cfg) < TWO_64
    requires Connected(cfg, w, dev, UntrustedClient) && InOrder(cfg, w, dev, c)
    requires c.body.voterId in w.service.rounds.timers
    requires w.service.rounds.timers[c.body.voterId].expiry <= w.clock.steady + Wait(cfg)
    requires Fresh(w.clock.wall + Wait(cfg), c.body.timestamp, cfg.freshness, cfg.absMin)
    ensures Exec(cfg, w, run).log ==
              w.log + [Reverted(c.body.voterId)] + [AcceptanceOf(dev, c, bs, Later(cfg, w.clock))]
  {
    hide Exec; hide Next; hide Fresh; hide Hex; hide TimeOut; hide KeysOk; hide TicketsOk; hide EventsOk;
    hide SignaturesOk;
    hide VoterOk; hide Ticketed;
    var out := TimeOut(cfg, w, w.service.rounds.timers[c.body.voterId].id);
    var again := CheckinStep(dev, c, bs);
    run := out + [again];
    TimesOut(cfg, w, c.body.voterId);
    InvExec(cfg, start, w, out);
    ExecOne(cfg, w, out, again);
    CheckinAccepted(cfg, Exec(cfg, w, out), dev, c, again);
  }

  /** The log gains a confirmation, an acceptance, a revert and the acceptance of the same request,
      with both clocks having moved together. */
  ghost predicate AcceptedTwice(log: seq<Event>, log': seq<Event>, offset: int) {
    var n := |log|;
    && |log'| == n + 4 && log <= log'
    && log'[n + 1].Accepted? && log'[n + 2] == Reverted(log'[n + 1].voterId) && log'[n + 3].Accepted?
    && log'[n + 1].request == log'[n + 3].request
    && log'[n + 1].at.wall == log'[n + 1].at.steady + offset
    && log'[n + 3].at.wall == log'[n + 3].at.steady + offset
  }

  lemma FreshAhead(cfg: Config, wall: uint64)
    requires cfg.timeout <= 2 * cfg.freshness && wall + 2 * cfg.freshness < TWO_64
    ensures Fresh(wall, wall + cfg.freshness, cfg.freshness, cfg.absMin)
    ensures Fresh(wall + Wait(cfg), wall + cfg.freshness, cfg.freshness, cfg.absMin)
  {}

  lemma TwiceInLog(log: seq<Event>, log': seq<Event>, log'': seq<Event>, id: Event, e: Event, e': Event, offset: int)
    requires e.Accepted? && e'.Accepted? && e.request == e'.request
    requires e.at.wall == e.at.steady + offset && e'.at.wall == e'.at.steady + offset
    requires log' == log + [id, e] && log'' == log' + [Reverted(e.voterId)] + [e']
    ensures AcceptedTwice(log, log'', offset)
  {}

  /** Once Phase 1 is through, the run that repeats it. */
  lemma ReplayAfter(cfg: Config, start: World, w: World, w': World, dev: Device, c: CheckinRequest, bs: Bytes)
    returns (again: seq<Step>)
    requires Inv(cfg, start, w') && Lengths(bs) && w.clock.wall + Wait(cfg) < TWO_64
    requires Phase1Done(cfg, w, w', dev, c, bs) && Connected(cfg, w', dev, UntrustedClient)
    requires Fresh(w.clock.wall + Wait(cfg), c.body.timestamp, cfg.freshness, cfg.absMin)
    ensures AcceptedTwice(w.log, Exec(cfg, w', again).log, w.clock.wall - w.clock.steady)
  {
    hide Exec; hide Inv; hide Fresh; hide Hex; hide Connected; hide InOrder; hide Ticketed; hide AcceptedTwice;
    RoundRunsOut(cfg, w, w', dev, c, bs);
    again := AcceptedAgain(cfg, start, w', dev, c, bs);
    TwiceInLog(w.log, w'.log, Exec(cfg, w', again).log, IdConfirmed(c.body.verified.presented, c.body.voterId),
               AcceptanceOf(dev, c, bs, w.clock), AcceptanceOf(dev, c, bs, Later(cfg, w.clock)),
               w.clock.wall - w.clock.steady);
  }

  lemma StaysConnected(cfg: Config, w: World, w': World, dev: Device, kind: ClientType)
    requires Connected(cfg, w, dev, kind) && SameClients(w, w')
    ensures Connected(cfg, w', dev, kind)
  {}

  lemma ReplayFrom(cfg: Config, start: World, w: World, dev: Device, p: Voter, idData: seq<byte>, bs: Bytes)
    returns (run: seq<Step>)
    requires Inv(cfg, start, w) && cfg.timeout <= 2 * cfg.freshness && Lengths(bs)
    requires CanCheckIn(cfg, w, dev, p) && w.clock.wall + 2 * cfg.freshness < TWO_64
    ensures AcceptedTwice(w.log, Exec(cfg, w, run).log, w.clock.wall - w.clock.steady)
  {
    hide Exec; hide Fresh; hide KeysOk; hide TicketsOk; hide EventsOk; hide SignaturesOk; hide VotersOk; hide TimeOk;
    hide WindowsOk; hide AcceptedTwice; hide Connected; hide Identifiable; hide Phase1; hide Ticketed; hide InOrder;
    var c := RequestAt(dev, p, w.clock.wall + cfg.freshness, idData, bs);
    var one := Phase1(dev, c, bs);
    FreshAhead(cfg, w.clock.wall);
    Phase1AtOnce(cfg, w, dev, p, w.clock.wall + cfg.freshness, idData, bs);
    InvExec(cfg, start, w, one);
    StaysConnected(cfg, w, Exec(cfg, w, one), dev, UntrustedClient);
    var again := ReplayAfter(cfg, start, w, Exec(cfg, w, one), dev, c, bs);
    ExecAppend(cfg, w, one, again);
    run := one + again;
  }

  /** From every reachable world in which a kiosk could check a voter in: a request dated one
      freshness interval ahead is accepted, times out, and is accepted again. */
  lemma {:induction false} ReplayPossible(
      cfg: Config, start: World, steps: seq<Step>, dev: Device, p: Voter, idData: seq<byte>, bs: Bytes)
    returns (run: seq<Step>)
    requires Initial(cfg, start) && cfg.timeout <= 2 * cfg.freshness && Lengths(bs)
    requires CanCheckIn(cfg, Exec(cfg, start, steps), dev, p)
    requires Exec(cfg, start, steps).clock.wall + 2 * cfg.freshness < TWO_64
    ensures var w := Exec(cfg, start, steps);
            AcceptedTwice(w.log, Exec(cfg, start, steps + run).log, w.clock.wall - w.clock.steady)
  {
    hide Exec; hide Inv; hide AcceptedTwice;
    var w := Exec(cfg, start, steps);
    InvAlways(cfg, start, steps);
    run := ReplayFrom(cfg, start, w, dev, p, idData, bs);
    ExecAppend(cfg, start, steps, run);
  }
}
