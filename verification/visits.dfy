/** Whole visits from the first handshake on: what a handshake leads to, how long a connection lasts, and
    that an honest voter is served in every run that has the steps, starting with the handshakes. */
module Visits {
  import opened Text
  import opened Messages
  import opened Freshness
  import opened Rounds
  import opened Roll
  import opened Protocol
  import opened Effects
  import opened Invariants
  import opened Provenance
  import opened Timing
  import opened Theorems
  import opened Honest
  import opened Scripts
  import opened Replay
  import opened Tickets
  import opened Answers
  import TicketFile

  // ---------------------------------------------------------------------------- handshakes

  /** No other key has been pinned for the client. */
  predicate MayUse(keys: map<uint32, PublicKey>, c: uint32, k: PublicKey) { c in keys ==> keys[c] == k }

  /** In every reachable world: a handshake with a key binds the connection to the client, types the client
      as trusted exactly if it is listed, pins the key if none is pinned yet, and begins to read; so the
      device is connected exactly if the key that it showed is the one pinned for it. */
  lemma {:induction false} HandshakeConnects(
      cfg: Config, start: World, steps: seq<Step>, dev: Device, kind: ClientType)
    requires Initial(cfg, start) && dev.key != cfg.idKey && dev.key != cfg.serviceKey
    ensures var w := Exec(cfg, start, steps);
            var w' := Next(cfg, w, Handshake(dev.endpoint, WithKey(dev.clientId, dev.key)));
            var d, d' := w.service.directory, w'.service.directory;
            && d'.clientIds == d.clientIds[dev.endpoint := dev.clientId]
            && d'.clients == d.clients[dev.clientId := if dev.clientId in cfg.trusted then TrustedClient
                                                       else UntrustedClient]
            && d'.verifiers == (if dev.clientId in d.verifiers then d.verifiers
                                else d.verifiers[dev.clientId := dev.key])
            && w'.service == w.service.(directory := d', armed := w.service.armed + {dev.endpoint})
            && w' == w.(service := w'.service)
            && (Connected(cfg, w', dev, kind) <==>
                  (kind.TrustedClient? <==> dev.clientId in cfg.trusted) && MayUse(d.verifiers, dev.clientId, dev.key))
  {
    hide Exec; hide Next; hide Connected; hide VotersOk; hide SignaturesOk; hide EventsOk; hide TimeOk; hide WindowsOk;
    hide TicketsOk; hide Initial;
    InvAlways(cfg, start, steps);
    AfterHandshake(cfg, Exec(cfg, start, steps), dev, kind);
  }

  lemma AfterHandshake(cfg: Config, w: World, dev: Device, kind: ClientType)
    requires KeysOk(cfg, w.service.directory) && dev.key != cfg.idKey && dev.key != cfg.serviceKey
    ensures var w' := Next(cfg, w, Handshake(dev.endpoint, WithKey(dev.clientId, dev.key)));
            var d, d' := w.service.directory, w'.service.directory;
            && d'.clientIds == d.clientIds[dev.endpoint := dev.clientId]
            && d'.clients == d.clients[dev.clientId := if dev.clientId in cfg.trusted then TrustedClient
                                                       else UntrustedClient]
            && d'.verifiers == (if dev.clientId in d.verifiers then d.verifiers
                                else d.verifiers[dev.clientId := dev.key])
            && w'.service == w.service.(directory := d', armed := w.service.armed + {dev.endpoint})
            && w' == w.(service := w'.service)
            && (Connected(cfg, w', dev, kind) <==>
                  (kind.TrustedClient? <==> dev.clientId in cfg.trusted) && MayUse(d.verifiers, dev.clientId, dev.key))
  {}

  /** A handshake without a key names the client and no more, and one without a certificate names nobody:
      neither types a client nor pins a key, though the connection is read from. */
  lemma {:induction false} HandshakeWithoutKey(cfg: Config, w: World, ep: Endpoint, c: uint32)
    ensures var d := w.service.directory;
            && Next(cfg, w, Handshake(ep, WithoutKey(c))) ==
                 w.(service := w.service.(directory := d.(clientIds := d.clientIds[ep := c]),
                                          armed := w.service.armed + {ep}))
            && Next(cfg, w, Handshake(ep, NoCertificate)) ==
                 w.(service := w.service.(armed := w.service.armed + {ep}))
  {}

  /** The voter's names are on the ID service's roll, up to case, under an id that is not the reserved one. */
  predicate OnIdRoll(cfg: Config, p: Voter) {
    && p.id != 4294967295
    && OnRecord(cfg, VoterIdBody(0, 0, p.names.last, p.names.middle, p.names.first, []), p.id)
  }

  /** Neither a key folder nor an earlier handshake has given the ID service another key for the client. */
  predicate IdMayUse(ids: IdService, c: uint32, k: PublicKey) {
    if c in ids.verifiers then ids.verifiers[c] == k else MayUse(ids.publicKeys, c, k)
  }

  /** A handshake with the ID service pins the key if none has been recorded; so the ID service can then
      identify a voter for the device exactly if no other key is recorded and the voter is on its roll. */
  lemma {:induction false} IdHandshakeIdentifies(cfg: Config, w: World, dev: Device, p: Voter)
    ensures var w' := Next(cfg, w, IdHandshake(dev.clientId, dev.key)); var ids, c := w.idService, dev.clientId;
            && w' == w.(idService :=
                          if !MayUse(ids.publicKeys, c, dev.key) then ids
                          else IdService(ids.publicKeys[c := dev.key],
                                         if c in ids.verifiers then ids.verifiers else ids.verifiers[c := dev.key]))
            && (Identifiable(cfg, w', dev, p) <==> OnIdRoll(cfg, p) && IdMayUse(ids, c, dev.key))
  {
    hide NamesMatch; hide OnRecord;
    NamesOnRecord(cfg, VoterIdBody(0, 0, p.names.last, p.names.middle, p.names.first, []), p.id);
  }

  // --------------------------------------------------------------------------- connections

  /** The step replaces the device's connection, or is a message on it after which nothing more is read. */
  predicate Disturbs(st: Step, dev: Device, kind: ClientType) {
    || (st.Handshake? && st.endpoint == dev.endpoint)
    || (st.Message? && st.endpoint == dev.endpoint && (kind.TrustedClient? || st.asCheckin.Err?))
  }

  /** A message on one connection leaves the others armed. */
  lemma OthersStayArmed(cfg: Config, w: World, st: Step)
    requires st.Message? && KeysOk(cfg, w.service.directory)
    ensures w.service.armed - {st.endpoint} <= Next(cfg, w, st).service.armed
  {
    hide Next; hide Checkin; hide Redeem; hide Hex; hide ReplyEvents; hide KeysOk;
    var s1 := w.service.(armed := w.service.armed - {st.endpoint});
    if c: uint32 :| Handled(cfg, w, st, c) {
      if SentBy(w, st.endpoint, c, TrustedClient) {
        NextIsRedeem(cfg, w, st, c);
        RedeemFootprint(cfg, s1, w.signed, w.clock, c, st.asTicket);
      } else {
        var b := CheckinReplyTo(cfg, w, st, c, st.asCheckin.value);
      }
    } else {
      NextIfUnhandled(cfg, w, st);
    }
  }

  lemma ConnectedKept(cfg: Config, w: World, st: Step, dev: Device, kind: ClientType)
    requires KeysOk(cfg, w.service.directory) && Connected(cfg, w, dev, kind) && !Disturbs(st, dev, kind)
    ensures Connected(cfg, Next(cfg, w, st), dev, kind)
  {
    KeysKept(cfg, w, st);
    if st.Message? {
      ConnectedAfterMessage(cfg, w, st, dev, kind);
    }
  }

  lemma ConnectedAfterMessage(cfg: Config, w: World, st: Step, dev: Device, kind: ClientType)
    requires st.Message? && KeysOk(cfg, w.service.directory)
    requires Connected(cfg, w, dev, kind) && !Disturbs(st, dev, kind)
    ensures Connected(cfg, Next(cfg, w, st), dev, kind)
  {
    hide Next; hide Enabled; hide KeysOk;
    KeysKeptByMessage(cfg, w, st);
    OthersStayArmed(cfg, w, st);
    if st.endpoint == dev.endpoint {
      if Enabled(cfg, w, st) {
        var b := CheckinReplyTo(cfg, w, st, dev.clientId, st.asCheckin.value);
      } else {
        NotEnabled(cfg, w, st);
      }
    }
  }

  lemma NotEnabled(cfg: Config, w: World, st: Step)
    requires !Enabled(cfg, w, st)
    ensures Next(cfg, w, st) == w
  {}

  /** A connection lasts until it is disturbed, whatever anybody else does. */
  lemma {:induction false} StaysConnectedWhileQuiet(
      cfg: Config, start: World, w: World, more: seq<Step>, dev: Device, kind: ClientType)
    requires Inv(cfg, start, w) && Connected(cfg, w, dev, kind)
    requires forall k :: 0 <= k < |more| ==> !Disturbs(more[k], dev, kind)
    ensures Connected(cfg, Exec(cfg, w, more), dev, kind)
  {
    hide Next; hide Connected; hide TicketsOk; hide VotersOk; hide SignaturesOk; hide EventsOk; hide TimeOk;
    hide WindowsOk; hide Disturbs;
    if more == [] {
    } else {
      var some := more[..|more| - 1];
      StaysConnectedWhileQuiet(cfg, start, w, some, dev, kind);
      InvExec(cfg, start, w, some);
      ConnectedKept(cfg, Exec(cfg, w, some), more[|more| - 1], dev, kind);
    }
  }

  /** What the ID service has recorded for a client it keeps. */
  lemma {:induction false} IdKeyStays(cfg: Config, w: World, more: seq<Step>, c: uint32)
    requires c in w.idService.verifiers
    ensures var ids := Exec(cfg, w, more).idService;
            c in ids.verifiers && ids.verifiers[c] == w.idService.verifiers[c]
  {
    hide Next;
    if more == [] {
    } else {
      IdKeyStays(cfg, w, more[..|more| - 1], c);
      IdKeyKept(cfg, Exec(cfg, w, more[..|more| - 1]), more[|more| - 1], c);
    }
  }

  lemma IdKeyKept(cfg: Config, w: World, st: Step, c: uint32)
    requires c in w.idService.verifiers
    ensures var ids := Next(cfg, w, st).idService;
            c in ids.verifiers && ids.verifiers[c] == w.idService.verifiers[c]
  {
    hide ReceiveStep; hide IdPlausible; hide IdConfirms;
    if st.Message? { MessageFootprint(cfg, w, st); }
  }

  // --------------------------------------------------------------------------- whole visits

  /** Where in the run the three handshakes of the visit are. */
  datatype Handshakes = Handshakes(id: nat, kiosk: nat, trusted: nat)

  function HandshakeOf(dev: Device): Step { Handshake(dev.endpoint, WithKey(dev.clientId, dev.key)) }

  predicate Quiet(steps: seq<Step>, i: nat, j: nat, dev: Device, kind: ClientType)
    requires j <= |steps|
  {
    forall k :: i < k < j ==> !Disturbs(steps[k], dev, kind)
  }

  /** Each handshake comes before the first message on its connection, which nothing disturbs until then. */
  predicate IncludesHandshakes(steps: seq<Step>, x: Visit, at: Places, hs: Handshakes)
    requires at.sendId < |steps| && at.sendCheckin < |steps| && at.sendTicket < |steps|
  {
    && hs.id < at.sendId && steps[hs.id] == IdHandshake(x.kiosk.clientId, x.kiosk.key)
    && hs.kiosk < at.sendCheckin && steps[hs.kiosk] == HandshakeOf(x.kiosk)
    && Quiet(steps, hs.kiosk, at.sendCheckin, x.kiosk, UntrustedClient)
    && hs.trusted < at.sendTicket && steps[hs.trusted] == HandshakeOf(x.trusted)
    && Quiet(steps, hs.trusted, at.sendTicket, x.trusted, TrustedClient)
  }

  /** The kiosk is not listed as trusted and the other device is; nobody has shown another key under their
      ids before them. */
  ghost predicate KeysFree(cfg: Config, start: World, steps: seq<Step>, x: Visit, hs: Handshakes)
    requires hs.id <= |steps| && hs.kiosk <= |steps| && hs.trusted <= |steps|
  {
    && x.kiosk.clientId !in cfg.trusted && x.trusted.clientId in cfg.trusted
    && {x.kiosk.key, x.trusted.key} !! {cfg.idKey, cfg.serviceKey}
    && IdMayUse(WorldAt(cfg, start, steps, hs.id).idService, x.kiosk.clientId, x.kiosk.key)
    && MayUse(WorldAt(cfg, start, steps, hs.kiosk).service.directory.verifiers, x.kiosk.clientId, x.kiosk.key)
    && MayUse(WorldAt(cfg, start, steps, hs.trusted).service.directory.verifiers, x.trusted.clientId, x.trusted.key)
  }

  /** The voter is on both rolls and eligible; every message is fresh when it arrives; the window is still
      open, and nobody was given the same random ticket in between. */
  ghost predicate InTime(cfg: Config, start: World, steps: seq<Step>, x: Visit, at: Places)
    requires IncludesPhase1(steps, x, at) && IncludesPhase2(steps, x, at)
  {
    var w1, w2 := WorldAt(cfg, start, steps, at.sendId), WorldAt(cfg, start, steps, at.sendCheckin);
    var w3, n := WorldAt(cfg, start, steps, at.sendTicket), |WorldAt(cfg, start, steps, at.sendCheckin + 1).log|;
    var expiry := w2.clock.steady + cfg.timeout;
    && OnIdRoll(cfg, x.voter) && PinIs(cfg, x.voter.id, x.voter.pin)
    && HasStatus(w2.service.rounds, x.voter.id, Eligible)
    && FreshAt(cfg, w1, x.idTime) && FreshAt(cfg, w2, x.checkinTime) && FreshAt(cfg, w3, x.ticketTime)
    && (w3.clock.steady < expiry || (w3.clock.steady == expiry && !RevertedSince(w3.log, n, x.voter.id)))
    && NotReissued(w3.log, n, TicketOfVisit(steps, at))
  }

  /** The device is still connected when its message arrives. */
  lemma ConnectedWhenSent(cfg: Config, start: World, steps: seq<Step>, i: nat, j: nat, dev: Device, kind: ClientType)
    requires Initial(cfg, start) && i < j <= |steps| && steps[i] == HandshakeOf(dev)
    requires Quiet(steps, i, j, dev, kind) && (kind.TrustedClient? <==> dev.clientId in cfg.trusted)
    requires dev.key != cfg.idKey && dev.key != cfg.serviceKey
    requires MayUse(WorldAt(cfg, start, steps, i).service.directory.verifiers, dev.clientId, dev.key)
    ensures Connected(cfg, WorldAt(cfg, start, steps, j), dev, kind)
  {
    hide Exec; hide Next; hide Inv; hide Connected; hide Initial; hide Disturbs;
    HandshakeConnects(cfg, start, steps[..i], dev, kind);
    StepAt(cfg, start, steps, i);
    InvAlways(cfg, start, steps[..i + 1]);
    Between(cfg, start, steps, i + 1, j);
    StaysConnectedWhileQuiet(cfg, start, WorldAt(cfg, start, steps, i + 1), steps[i + 1..j], dev, kind);
  }

  lemma IdentifiableWhenSent(cfg: Config, start: World, steps: seq<Step>, i: nat, j: nat, dev: Device, p: Voter)
    requires i < j <= |steps| && steps[i] == IdHandshake(dev.clientId, dev.key) && OnIdRoll(cfg, p)
    requires IdMayUse(WorldAt(cfg, start, steps, i).idService, dev.clientId, dev.key)
    ensures Identifiable(cfg, WorldAt(cfg, start, steps, j), dev, p)
  {
    hide Exec; hide Next; hide NamesMatch; hide OnRecord;
    IdHandshakeIdentifies(cfg, WorldAt(cfg, start, steps, i), dev, p);
    StepAt(cfg, start, steps, i);
    Between(cfg, start, steps, i + 1, j);
    IdKeyStays(cfg, WorldAt(cfg, start, steps, i + 1), steps[i + 1..j], dev.clientId);
  }

  /** An honest visit completes from the start of the services on, in every run that contains its nine steps
      in their order: the handshakes, the signatures and the messages. Nothing is assumed about what the
      services have recorded but that nobody else uses the devices' client ids. */
  lemma {:induction false} VisitCompletes(
      cfg: Config, start: World, steps: seq<Step>, x: Visit, at: Places, hs: Handshakes)
    requires Initial(cfg, start) && IncludesPhase1(steps, x, at) && IncludesPhase2(steps, x, at)
    requires IncludesHandshakes(steps, x, at, hs) && KeysFree(cfg, start, steps, x, hs)
    requires InTime(cfg, start, steps, x, at)
    ensures var v, ticket, secret := x.voter.id, TicketOfVisit(steps, at), SecretOfVisit(steps, at);
            var w, w' := WorldAt(cfg, start, steps, at.sendCheckin), WorldAt(cfg, start, steps, at.sendCheckin + 1);
            var u, u' := WorldAt(cfg, start, steps, at.sendTicket), WorldAt(cfg, start, steps, at.sendTicket + 1);
            && Ticketed(w', v, ticket, secret, w.clock.steady + cfg.timeout)
            && TicketSent(cfg, w', CheckinIn(x), w.clock.wall, ticket, steps[at.sendCheckin].bytes)
            && (HasStatus(u.service.rounds, v, Pending) || HasStatus(u.service.rounds, v, CheckedIn))
            && (HasStatus(u.service.rounds, v, Pending) ==>
                  SecretSent(cfg, u', v, x.voter.pin, secret, steps[at.sendTicket].bytes))
            && HasStatus(Exec(cfg, start, steps).service.rounds, v, CheckedIn)
  {
    hide Exec; hide FreshAt; hide FindVoter; hide Dec; hide OnRecord; hide NamesMatch; hide Quiet; hide Initial;
    hide Connected; hide Identifiable; hide IdMayUse; hide MayUse; hide Hex; hide RevertedSince; hide NotReissued;
    hide CheckinIn; hide TicketIn; hide IdRequestIn; hide Ticketed; hide TicketSent; hide SecretSent;
    ConnectedWhenSent(cfg, start, steps, hs.kiosk, at.sendCheckin, x.kiosk, UntrustedClient);
    ConnectedWhenSent(cfg, start, steps, hs.trusted, at.sendTicket, x.trusted, TrustedClient);
    IdentifiableWhenSent(cfg, start, steps, hs.id, at.sendId, x.kiosk, x.voter);
    HonestRunCompletes(cfg, start, steps, x, at);
  }

  // ------------------------------------------------------------------- and there is such a run

  /** All three devices' handshakes, then Phase 1 and Phase 2 at one clock reading. */
  function WholeVisit(cfg: Config, w: World, kiosk: Device, trusted: Device, p: Voter, idData: seq<byte>, bs: Bytes)
    : seq<Step>
  {
    var shown := [IdHandshake(kiosk.clientId, kiosk.key), HandshakeOf(kiosk), HandshakeOf(trusted)];
    shown + Phase1(kiosk, RequestAt(kiosk, p, w.clock.wall, idData, bs), bs)
          + AttemptSteps(w, trusted, p.pin, Hex(bs.ticket))
  }

  /** What the two devices and the voter need before any of them has contacted a service. */
  ghost predicate CanVisit(cfg: Config, w: World, kiosk: Device, trusted: Device, p: Voter) {
    && kiosk.clientId !in cfg.trusted && trusted.clientId in cfg.trusted && kiosk.endpoint != trusted.endpoint
    && {kiosk.key, trusted.key} !! {cfg.idKey, cfg.serviceKey}
    && IdMayUse(w.idService, kiosk.clientId, kiosk.key)
    && MayUse(w.service.directory.verifiers, kiosk.clientId, kiosk.key)
    && MayUse(w.service.directory.verifiers, trusted.clientId, trusted.key)
    && OnIdRoll(cfg, p) && PinIs(cfg, p.id, p.pin) && HasStatus(w.service.rounds, p.id, Eligible)
  }

  /** After the three handshakes both devices are connected and the ID service can identify the voter. */
  lemma AllConnected(cfg: Config, start: World, w: World, kiosk: Device, trusted: Device, p: Voter, shown: seq<Step>)
    requires Inv(cfg, start, w) && CanVisit(cfg, w, kiosk, trusted, p)
    requires shown == [IdHandshake(kiosk.clientId, kiosk.key), HandshakeOf(kiosk), HandshakeOf(trusted)]
    ensures var w' := Exec(cfg, w, shown);
            && CanCheckIn(cfg, w', kiosk, p) && Connected(cfg, w', trusted, TrustedClient)
            && w'.clock == w.clock
  {
    hide OnRecord; hide NamesMatch; hide FindVoter; hide TicketsOk; hide VotersOk; hide SignaturesOk; hide EventsOk;
    hide TimeOk; hide WindowsOk; hide Exec; hide Dec; hide Next; hide Identifiable; hide OnIdRoll; hide IdMayUse;
    var w1 := Next(cfg, w, shown[0]);
    var w2 := Next(cfg, w1, shown[1]);
    ExecThree(cfg, w, shown);
    IdHandshakeIdentifies(cfg, w, kiosk, p);
    Connects(cfg, w1, kiosk, UntrustedClient);
    Connects(cfg, w2, trusted, TrustedClient);
    ConnectedKeptByHandshake(cfg, w2, kiosk, trusted);
    StillIdentifiable(cfg, w1, Exec(cfg, w, shown), kiosk, p);
  }

  lemma StillIdentifiable(cfg: Config, w: World, w': World, dev: Device, p: Voter)
    requires Identifiable(cfg, w, dev, p) && w'.idService == w.idService
    ensures Identifiable(cfg, w', dev, p)
  {}

  lemma Connects(cfg: Config, w: World, dev: Device, kind: ClientType)
    requires KeysOk(cfg, w.service.directory) && (kind.TrustedClient? <==> dev.clientId in cfg.trusted)
    requires dev.key != cfg.idKey && dev.key != cfg.serviceKey
    requires MayUse(w.service.directory.verifiers, dev.clientId, dev.key)
    ensures var w' := Next(cfg, w, HandshakeOf(dev));
            && Connected(cfg, w', dev, kind) && KeysOk(cfg, w'.service.directory)
            && w'.clock == w.clock && w'.idService == w.idService && w'.service.rounds == w.service.rounds
            && forall c :: c != dev.clientId && c in w'.service.directory.verifiers ==>
                 c in w.service.directory.verifiers &&
                 w'.service.directory.verifiers[c] == w.service.directory.verifiers[c]
  {}

  lemma ConnectedKeptByHandshake(cfg: Config, w: World, dev: Device, other: Device)
    requires KeysOk(cfg, w.service.directory) && Connected(cfg, w, dev, UntrustedClient)
    requires dev.endpoint != other.endpoint
    ensures Connected(cfg, Next(cfg, w, HandshakeOf(other)), dev, UntrustedClient)
  {
    ConnectedKept(cfg, w, HandshakeOf(other), dev, UntrustedClient);
  }

  /** From every reachable world in which the voter is eligible and nobody uses the devices' client ids
      with other keys, this run checks the voter in, and the trusted device gets the secret. */
  lemma {:induction false} VisitPossible(
      cfg: Config, start: World, steps: seq<Step>, kiosk: Device, trusted: Device, p: Voter, idData: seq<byte>,
      bs: Bytes)
    requires Initial(cfg, start) && Lengths(bs) && cfg.timeout >= 0
    requires CanVisit(cfg, Exec(cfg, start, steps), kiosk, trusted, p)
    ensures var run := WholeVisit(cfg, Exec(cfg, start, steps), kiosk, trusted, p, idData, bs);
            var w' := Exec(cfg, start, steps + run);
            HasStatus(w'.service.rounds, p.id, CheckedIn) && SecretSent(cfg, w', p.id, p.pin, Hex(bs.secret), [])
  {
    hide Exec; hide Inv; hide Hex; hide CanCheckIn; hide Connected; hide Phase1; hide AttemptSteps; hide SecretSent;
    hide FindVoter; hide Initial; hide HandshakeOf; hide OnIdRoll; hide MayUse; hide IdMayUse; hide Dec;
    var w := Exec(cfg, start, steps);
    InvAlways(cfg, start, steps);
    var shown := [IdHandshake(kiosk.clientId, kiosk.key), HandshakeOf(kiosk), HandshakeOf(trusted)];
    var phase1 := Phase1(kiosk, RequestAt(kiosk, p, w.clock.wall, idData, bs), bs);
    AllConnected(cfg, start, w, kiosk, trusted, p, shown);
    InvExec(cfg, start, w, shown);
    ServedOnceConnected(cfg, start, w, Exec(cfg, w, shown), kiosk, trusted, p, idData, bs);
    ExecAppend(cfg, w, shown, phase1);
    ExecAppend(cfg, w, shown + phase1, AttemptSteps(w, trusted, p.pin, Hex(bs.ticket)));
    ExecAppend(cfg, start, steps, WholeVisit(cfg, w, kiosk, trusted, p, idData, bs));
  }

  lemma ServedOnceConnected(cfg: Config, start: World, before: World, w: World, kiosk: Device, trusted: Device,
                            p: Voter, idData: seq<byte>, bs: Bytes)
    requires Inv(cfg, start, w) && Lengths(bs) && cfg.timeout >= 0 && w.clock == before.clock
    requires CanCheckIn(cfg, w, kiosk, p) && Connected(cfg, w, trusted, TrustedClient) && PinIs(cfg, p.id, p.pin)
    ensures var w' := Exec(cfg, Exec(cfg, w, Phase1(kiosk, RequestAt(kiosk, p, before.clock.wall, idData, bs), bs)),
                           AttemptSteps(before, trusted, p.pin, Hex(bs.ticket)));
            HasStatus(w'.service.rounds, p.id, CheckedIn) && SecretSent(cfg, w', p.id, p.pin, Hex(bs.secret), [])
  {
    hide Exec; hide Hex; hide Phase1; hide Connected; hide EventsOk; hide SignaturesOk; hide VotersOk; hide FindVoter;
    hide KeysOk; hide TicketsOk; hide WindowsOk; hide TimeOk; hide Identifiable; hide InOrder; hide OnFile;
    hide SecretSent; hide Fresh; hide Dec;
    var c := RequestAt(kiosk, p, w.clock.wall, idData, bs);
    var w1 := Exec(cfg, w, Phase1(kiosk, c, bs));
    FreshNow(cfg, w);
    Phase1AtOnce(cfg, w, kiosk, p, w.clock.wall, idData, bs);
    InvExec(cfg, start, w, Phase1(kiosk, c, bs));
    StaysConnected(cfg, w, w1, trusted, TrustedClient);
    AttemptSucceeds(cfg, start, w1, trusted, p.id, p.pin, Hex(bs.ticket), Hex(bs.secret));
    assert AttemptSteps(before, trusted, p.pin, Hex(bs.ticket)) == AttemptSteps(w1, trusted, p.pin, Hex(bs.ticket));
  }
}
