/** The voters' states, the timers of the pending check-ins and the timeout
    handlers that the event loop still holds. */
module Rounds {
  import opened Text

  datatype VoterStatus = Eligible | Pending | CheckedIn

  /** A `steady_timer`; the id names the object. */
  datatype Timer = Timer(id: nat, expiry: int)

  /** The one `async_wait` of a timer: still waiting, queued because the timer
      expired, or queued because it was cancelled or destroyed. */
  datatype WaitState = Waiting | Fired | Aborted

  datatype Handler = Handler(voterId: uint32, expiry: int, state: WaitState)

  datatype Rounds = Rounds(status: map<uint32, VoterStatus>, timers: map<uint32, Timer>,
                           handlers: map<nat, Handler>, nextTimer: nat)

  predicate HasStatus(r: Rounds, v: uint32, s: VoterStatus) { v in r.status && r.status[v] == s }

  /** Cancelling or destroying a timer aborts a handler that is still waiting and
      leaves one that is already queued. */
  function Abort(handlers: map<nat, Handler>, id: nat): map<nat, Handler> {
    if id in handlers && handlers[id].state.Waiting?
    then handlers[id := handlers[id].(state := Aborted)] else handlers
  }

  /** The handlers after the timer of voter `v`, if it has one, is destroyed. */
  function Dropped(r: Rounds, v: uint32): map<nat, Handler> {
    if v in r.timers then Abort(r.handlers, r.timers[v].id) else r.handlers
  }

  /** Phase 1 accepts: the voter becomes pending and a new timer takes the voter's entry. */
  function Begin(r: Rounds, v: uint32, expiry: int): Rounds {
    Rounds(r.status[v := Pending], r.timers[v := Timer(r.nextTimer, expiry)],
           Dropped(r, v)[r.nextTimer := Handler(v, expiry, Waiting)], r.nextTimer + 1)
  }

  /** Phase 2 approves: the timer entry goes, a pending voter is checked in, the timer is cancelled. */
  function Finish(r: Rounds, v: uint32): Rounds {
    r.(status := if HasStatus(r, v, Pending) then r.status[v := CheckedIn] else r.status,
       timers := r.timers - {v},
       handlers := Dropped(r, v))
  }

  /** `handle_verification_timeout`. */
  function Timeout(r: Rounds, v: uint32): Rounds {
    r.(status := if HasStatus(r, v, Pending) then r.status[v := Eligible] else r.status,
       timers := r.timers - {v},
       handlers := Dropped(r, v))
  }

  /** The event loop notices that a timer has expired and queues its handler. */
  function Expire(r: Rounds, h: nat, now: int): Rounds {
    if h in r.handlers && r.handlers[h].state.Waiting? && r.handlers[h].expiry <= now
    then r.(handlers := r.handlers[h := r.handlers[h].(state := Fired)]) else r
  }

  /** The event loop runs a queued handler. */
  function RunHandler(r: Rounds, h: nat): Rounds {
    if h !in r.handlers || r.handlers[h].state.Waiting? then r else
      var rest := r.(handlers := r.handlers - {h});
      if r.handlers[h].state.Fired? then Timeout(rest, r.handlers[h].voterId) else rest
  }

  // ------------------------------------------------------------------------ invariant

  predicate Live(r: Rounds, h: nat) { h in r.handlers && !r.handlers[h].state.Aborted? }

  /** The timer entry of a voter: there is one exactly while the voter is pending,
      and its handler is live and agrees with it. */
  predicate EntryOk(r: Rounds, v: uint32) {
    && (v in r.timers <==> HasStatus(r, v, Pending))
    && (v in r.timers ==>
          var t := r.timers[v];
          t.id < r.nextTimer && Live(r, t.id) && r.handlers[t.id].voterId == v && r.handlers[t.id].expiry == t.expiry)
  }

  /** A handler that was not aborted belongs to the entry of its voter, or it had
      already fired when Phase 2 checked the voter in. */
  predicate HandlerOk(r: Rounds, h: nat)
    requires h in r.handlers
  {
    var x := r.handlers[h];
    && h < r.nextTimer
    && (!x.state.Aborted? ==>
          || (x.voterId in r.timers && r.timers[x.voterId].id == h)
          || (HasStatus(r, x.voterId, CheckedIn) && x.state.Fired?))
  }

  ghost predicate Valid(r: Rounds) {
    && (forall v: uint32 {:trigger v in r.timers} {:trigger v in r.status} :: EntryOk(r, v))
    && (forall h :: h in r.handlers ==> HandlerOk(r, h))
  }

  lemma BeginKeepsValid(r: Rounds, v: uint32, expiry: int)
    requires Valid(r) && HasStatus(r, v, Eligible)
    ensures Valid(Begin(r, v, expiry))
    ensures Begin(r, v, expiry).timers - {v} == r.timers - {v}
  {
    var r' := Begin(r, v, expiry);
    assert EntryOk(r, v);
    forall u: uint32 ensures EntryOk(r', u) {
      assert EntryOk(r, u);
    }
    forall h | h in r'.handlers ensures HandlerOk(r', h) {
      if h != r.nextTimer { assert HandlerOk(r, h); }
    }
  }

  lemma FinishKeepsValid(r: Rounds, v: uint32)
    requires Valid(r) && v in r.timers
    ensures Valid(Finish(r, v))
    ensures HasStatus(r, v, Pending) && Finish(r, v).status == r.status[v := CheckedIn]
    ensures v !in Finish(r, v).timers && Finish(r, v).timers - {v} == r.timers - {v}
  {
    var r' := Finish(r, v);
    assert EntryOk(r, v);
    forall u: uint32 ensures EntryOk(r', u) {
      assert EntryOk(r, u);
      if u in r.timers { assert HandlerOk(r, r.timers[u].id); }
    }
    forall h | h in r'.handlers ensures HandlerOk(r', h) {
      assert HandlerOk(r, h);
    }
  }

  lemma ExpireKeepsValid(r: Rounds, h: nat, now: int)
    requires Valid(r)
    ensures Valid(Expire(r, h, now))
  {
    var r' := Expire(r, h, now);
    forall u: uint32 ensures EntryOk(r', u) {
      assert EntryOk(r, u);
    }
    forall k | k in r'.handlers ensures HandlerOk(r', k) {
      assert HandlerOk(r, k);
    }
  }

  /** A handler that meets its voter's own timer entry. */
  predicate Ends(r: Rounds, h: nat) {
    h in r.handlers && r.handlers[h].state.Fired? &&
    var v := r.handlers[h].voterId;
    v in r.timers && r.timers[v].id == h
  }

  /** A queued handler ends the round it was started for, or it changes no voter
      and no timer: no stale timeout ends a later round. */
  lemma RunHandlerEffect(r: Rounds, h: nat)
    requires Valid(r)
    ensures Valid(RunHandler(r, h))
    ensures if Ends(r, h)
            then var v := r.handlers[h].voterId;
                 HasStatus(r, v, Pending) && RunHandler(r, h).status == r.status[v := Eligible]
            else RunHandler(r, h).status == r.status && RunHandler(r, h).timers == r.timers
  {
    var r' := RunHandler(r, h);
    if h in r.handlers && !r.handlers[h].state.Waiting? {
      assert HandlerOk(r, h);
      var v := r.handlers[h].voterId;
      assert EntryOk(r, v);
      if !Ends(r, h) && r.handlers[h].state.Fired? {
        assert v !in r.timers;
        assert r.timers - {v} == r.timers;
      }
      forall u: uint32 ensures EntryOk(r', u) {
        assert EntryOk(r, u);
        if u in r.timers { assert HandlerOk(r, r.timers[u].id); }
      }
      forall k | k in r'.handlers ensures HandlerOk(r', k) {
        assert HandlerOk(r, k);
      }
    }
  }

  /** Every pending voter has exactly one live handler, its entry's, and a voter
      who is not pending has none that could end a round. */
  lemma OneLiveHandler(r: Rounds, v: uint32, h: nat)
    requires Valid(r)
    ensures HasStatus(r, v, Pending) ==>
              v in r.timers && ((Live(r, h) && r.handlers[h].voterId == v) <==> h == r.timers[v].id)
    ensures !HasStatus(r, v, Pending) && Live(r, h) && r.handlers[h].voterId == v ==>
              HasStatus(r, v, CheckedIn) && r.handlers[h].state.Fired?
  {
    assert EntryOk(r, v);
    if h in r.handlers { assert HandlerOk(r, h); }
  }

  /** A new round in place of an open one: the old timer's handler, if it still waits, is aborted and will do
      nothing; if it has fired already, it stays in the queue. */
  lemma {:induction false} BeginReplaces(r: Rounds, v: uint32, expiry: int)
    requires v in r.timers && r.timers[v].id in r.handlers && r.timers[v].id < r.nextTimer
    ensures var r', was := Begin(r, v, expiry), r.timers[v].id;
            && was in r'.handlers && (Live(r', was) <==> Live(r, was) && !r.handlers[was].state.Waiting?)
            && Live(r', r.nextTimer) && r'.timers[v] == Timer(r.nextTimer, expiry)
            && (!Live(r', was) ==> RunHandler(r', was) == r'.(handlers := r'.handlers - {was}))
  {}
}
