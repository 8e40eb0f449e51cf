/** When rounds start and end: acceptances for one voter are a timeout apart, and an
    approval falls into the window of the round it ends. */
module Timing {
  import opened Text
  import opened Messages
  import opened Rounds
  import opened Protocol
  import opened Effects
  import opened Invariants

  /** A handler is queued as expired only once its time has come. */
  ghost predicate FiredInTime(r: Rounds, now: int) {
    forall h :: h in r.handlers && r.handlers[h].state.Fired? ==> r.handlers[h].expiry <= now
  }

  predicate AcceptedFor(e: Event, v: uint32) { e.Accepted? && e.voterId == v }

  /** Two acceptances for one voter are at least the timeout apart. */
  ghost predicate Spaced(cfg: Config, log: seq<Event>) {
    forall i, j :: 0 <= i < j < |log| && log[i].Accepted? && AcceptedFor(log[j], log[i].voterId) ==>
      log[j].at.steady >= log[i].at.steady + cfg.timeout
  }

  /** Acceptances are in the past, and those for a voter who is eligible again have run out. */
  ghost predicate PastOk(cfg: Config, w: World, i: nat)
    requires i < |w.log|
  {
    w.log[i].Accepted? ==>
      && w.log[i].at.steady <= w.clock.steady
      && (HasStatus(w.service.rounds, w.log[i].voterId, Eligible) ==>
            w.log[i].at.steady + cfg.timeout <= w.clock.steady)
  }

  ghost predicate TimeOk(cfg: Config, w: World) {
    && FiredInTime(w.service.rounds, w.clock.steady)
    && Spaced(cfg, w.log)
    && forall i :: 0 <= i < |w.log| ==> PastOk(cfg, w, i)
  }

  /** Where the last event of a voter's history is in the log. */
  lemma {:induction false} LastConcern(log: seq<Event>, v: uint32) returns (k: nat)
    requires History(log, v) != []
    ensures k < |log| && log[k] == History(log, v)[|History(log, v)| - 1] && Concerns(log[k], v)
    ensures forall i :: k < i < |log| ==> !Concerns(log[i], v)
    decreases |log|
  {
    var n := |log| - 1;
    if Concerns(log[n], v) {
      k := n;
    } else {
      k := LastConcern(log[..n], v);
      assert log[..n][k] == log[k];
      forall i | k < i < |log| ensures !Concerns(log[i], v) {
        if i < n { assert log[i] == log[..n][i]; }
      }
    }
  }

  /** When the timer of a pending voter has run out, so have all earlier acceptances. */
  lemma RunOut(cfg: Config, w: World, v: uint32, i: nat)
    requires VotersOk(cfg, w) && TimeOk(cfg, w) && v in w.service.rounds.timers
    requires w.service.rounds.timers[v].expiry <= w.clock.steady
    requires i < |w.log| && AcceptedFor(w.log[i], v)
    ensures w.log[i].at.steady + cfg.timeout <= w.clock.steady
  {
    assert VoterOk(cfg, w, v);
    var k := LastConcern(w.log, v);
    assert PastOk(cfg, w, i);
    assert i <= k by { assert Concerns(w.log[i], v); }
  }

  lemma SpacedAfter(cfg: Config, w: World, e: Event)
    requires TimeOk(cfg, w)
    requires e.Accepted? ==> HasStatus(w.service.rounds, e.voterId, Eligible) && e.at == w.clock
    ensures Spaced(cfg, w.log + [e])
  {
    var log := w.log + [e];
    forall i, j | 0 <= i < j < |log| && log[i].Accepted? && AcceptedFor(log[j], log[i].voterId)
      ensures log[j].at.steady >= log[i].at.steady + cfg.timeout
    {
      assert PastOk(cfg, w, i);
      if j < |w.log| { assert log[j] == w.log[j]; }
    }
  }

  /** A new event is fine if the voters who are eligible after it were so before it. */
  lemma TimeAfterEvent(cfg: Config, w: World, w': World, e: Event)
    requires TimeOk(cfg, w) && Spaced(cfg, w'.log) && w'.log == w.log + [e] && w'.clock == w.clock
    requires FiredInTime(w'.service.rounds, w'.clock.steady)
    requires e.Accepted? ==> e.at == w.clock && !HasStatus(w'.service.rounds, e.voterId, Eligible)
    requires forall v: uint32 :: HasStatus(w'.service.rounds, v, Eligible) ==> HasStatus(w.service.rounds, v, Eligible)
    ensures TimeOk(cfg, w')
  {
    forall i | 0 <= i < |w'.log| ensures PastOk(cfg, w', i) {
      if i < |w.log| { assert PastOk(cfg, w, i); }
    }
  }

  lemma TimeAfterPhase(cfg: Config, w: World, w': World, e: Event)
    requires TimeOk(cfg, w) && w'.log == w.log + [e] && w'.clock == w.clock && Advances(cfg, w, w', e)
    requires e.Accepted? ==> HasStatus(w.service.rounds, e.voterId, Eligible) && e.at == w.clock
    ensures TimeOk(cfg, w')
  {
    SpacedAfter(cfg, w, e);
    TimeAfterEvent(cfg, w, w', e);
  }

  lemma TimeAfterRevert(cfg: Config, w: World, h: nat)
    requires VotersOk(cfg, w) && TimeOk(cfg, w)
    ensures TimeOk(cfg, Next(cfg, w, HandlerRuns(h)))
  {
    var w' := Next(cfg, w, HandlerRuns(h));
    var r := w.service.rounds;
    RunHandlerEffect(r, h);
    forall i | 0 <= i < |w'.log| ensures PastOk(cfg, w', i) {
      if i < |w.log| {
        assert PastOk(cfg, w, i);
        if Ends(r, h) && w.log[i].Accepted? && w.log[i].voterId == r.handlers[h].voterId {
          assert EntryOk(r, w.log[i].voterId);
          RunOut(cfg, w, w.log[i].voterId, i);
        }
      }
    }
  }

  lemma TimeKeptByMessage(cfg: Config, w: World, st: Step)
    requires st.Message? && TimeOk(cfg, w)
    ensures TimeOk(cfg, Next(cfg, w, st))
  {
    hide Next; hide Added; hide Advances; hide PastOk; hide Validates; hide Confirms; hide Refreshed;
    MessageEffect(cfg, w, st);
    var added := Added(cfg, w, st);
    if added == [] {
      TimeUntouched(cfg, w, Next(cfg, w, st));
    } else {
      assert added == [added[0]];
      TimeAfterPhase(cfg, w, Next(cfg, w, st), added[0]);
    }
  }

  lemma TimeKept(cfg: Config, w: World, st: Step)
    requires VotersOk(cfg, w) && TimeOk(cfg, w)
    ensures TimeOk(cfg, Next(cfg, w, st))
  {
    match st
    case Message(_, _, _, _, _, _) => TimeKeptByMessage(cfg, w, st);
    case HandlerRuns(h) => TimeAfterRevert(cfg, w, h);
    case _ => TimeUntouched(cfg, w, Next(cfg, w, st));
  }

  lemma TimeUntouched(cfg: Config, w: World, w': World)
    requires TimeOk(cfg, w) && w'.service.rounds.status == w.service.rounds.status
    requires FiredInTime(w'.service.rounds, w'.clock.steady) && w'.clock.steady >= w.clock.steady
    requires w'.log == w.log || (|w'.log| == |w.log| + 1 && w.log <= w'.log && w'.log[|w.log|].IdConfirmed?)
    ensures TimeOk(cfg, w')
  {
    forall i | 0 <= i < |w'.log| ensures PastOk(cfg, w', i) {
      if i < |w.log| { assert PastOk(cfg, w, i); }
    }
  }

  // -------------------------------------------------------------------- the approval window

  /** `j` is the acceptance that started the round which is open at `k`. */
  ghost predicate RoundStart(log: seq<Event>, j: nat, k: nat, v: uint32) {
    j < k <= |log| && AcceptedFor(log[j], v) && forall i :: j < i < k ==> !Concerns(log[i], v)
  }

  /** The approval at `k` falls between the start of its round and the timeout. */
  ghost predicate WindowOk(cfg: Config, log: seq<Event>, k: nat)
    requires k < |log|
  {
    log[k].Approved? ==>
      exists j: nat :: RoundStart(log, j, k, log[k].voterId) &&
        log[j].at.steady <= log[k].at.steady <= log[j].at.steady + cfg.timeout
  }

  ghost predicate WindowsOk(cfg: Config, log: seq<Event>) {
    forall k :: 0 <= k < |log| ==> WindowOk(cfg, log, k)
  }

  lemma WindowOkLater(cfg: Config, log: seq<Event>, more: seq<Event>, k: nat)
    requires k < |log| && WindowOk(cfg, log, k)
    ensures WindowOk(cfg, log + more, k)
  {
    if log[k].Approved? {
      var v := log[k].voterId;
      var j: nat :| RoundStart(log, j, k, v) &&
               log[j].at.steady <= log[k].at.steady <= log[j].at.steady + cfg.timeout;
      assert RoundStart(log + more, j, k, v);
    }
  }

  /** A voter with a timer has an open round, and the timer expires a timeout after its start. */
  lemma OpenRound(cfg: Config, w: World, v: uint32) returns (j: nat)
    requires VotersOk(cfg, w) && TimeOk(cfg, w) && v in w.service.rounds.timers
    ensures RoundStart(w.log, j, |w.log|, v) && w.log[j].at.steady <= w.clock.steady
    ensures w.service.rounds.timers[v].expiry == w.log[j].at.steady + cfg.timeout
  {
    assert VoterOk(cfg, w, v);
    j := LastConcern(w.log, v);
    assert PastOk(cfg, w, j);
  }

  lemma NewWindowOk(cfg: Config, w: World, e: Event)
    requires VotersOk(cfg, w) && TimeOk(cfg, w) && WindowsOk(cfg, w.log)
    requires e.Approved? ==> e.at == w.clock && e.voterId in w.service.rounds.timers &&
                             w.clock.steady <= w.service.rounds.timers[e.voterId].expiry
    ensures WindowsOk(cfg, w.log + [e])
  {
    var log := w.log + [e];
    if e.Approved? {
      var j := OpenRound(cfg, w, e.voterId);
      assert RoundStart(log, j, |w.log|, e.voterId);
    }
    forall k | 0 <= k < |log| ensures WindowOk(cfg, log, k) {
      if k < |w.log| { WindowOkLater(cfg, w.log, [e], k); }
    }
  }

  lemma WindowsKept(cfg: Config, w: World, st: Step)
    requires VotersOk(cfg, w) && TimeOk(cfg, w) && WindowsOk(cfg, w.log)
    ensures WindowsOk(cfg, Next(cfg, w, st).log)
  {
    StepEvents(cfg, w, st);
    var added := Added(cfg, w, st);
    if added == [] {
      assert w.log + added == w.log;
    } else {
      assert added == [added[0]];
      NewWindowOk(cfg, w, added[0]);
    }
  }
}
