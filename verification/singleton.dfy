/** The configuration singleton: any number of threads in `initialize` and `getInstance`,
    one atomic operation at a time. */
module Singleton {
  import opened Text

  type Thread = nat
  type Object = nat

  datatype Flag = Uninitialized | Initializing | Initialized

  /** Where a thread is. `nested` marks an `initialize` that `getInstance` called in its loop. */
  datatype Place =
    | Outside
    | AtCompareExchange(nested: bool)  // about to try UNINITIALIZED -> INITIALIZING
    | Constructing(nested: bool)       // won the exchange; runs the constructor
    | AtStore(nested: bool)            // `instance` is assigned; about to publish INITIALIZED
    | Waiting(nested: bool)            // spins until the flag is INITIALIZED
    | AtLoad                           // head of the loop in `getInstance`
    | InitializeReturned
    | GetReturned(result: Option<Object>)

  /** `threw` records that the constructor has thrown; no code reads it. */
  datatype State = State(flag: Flag, instance: Option<Object>, constructed: seq<Object>, places: map<Thread, Place>,
                         threw: bool)

  const START: State := State(Uninitialized, None, [], map[], false)

  function At(s: State, t: Thread): Place { if t in s.places then s.places[t] else Outside }

  predicate Idle(p: Place) { p.Outside? || p.InitializeReturned? || p.GetReturned? }

  function AfterWait(nested: bool): Place { if nested then AtLoad else InitializeReturned }

  /** One thread does one thing: calls a function, or performs its next operation. The constructor
      yields an object or throws; the exception leaves both functions, and the thread may call again. */
  datatype Action = CallInitialize | CallGetInstance | Proceed(made: Option<Object>)

  function Step(s: State, t: Thread, a: Action): State {
    var go := (p: Place) => s.(places := s.places[t := p]);
    match a
    case CallInitialize => if Idle(At(s, t)) then go(AtCompareExchange(false)) else s
    case CallGetInstance => if Idle(At(s, t)) then go(AtLoad) else s
    case Proceed(made) =>
      match At(s, t)
      case AtCompareExchange(n) =>
        if s.flag.Uninitialized? then go(Constructing(n)).(flag := Initializing) else go(Waiting(n))
      case Constructing(n) =>
        (match made
         case None => go(Outside).(threw := true)
         case Some(o) => go(AtStore(n)).(instance := Some(o), constructed := s.constructed + [o]))
      case AtStore(n) => go(Waiting(n)).(flag := Initialized)
      case Waiting(n) => if s.flag.Initialized? then go(AfterWait(n)) else s
      case AtLoad => if s.flag.Initialized? then go(GetReturned(s.instance)) else go(AtCompareExchange(true))
      case _ => s
  }

  function Run(s: State, actions: seq<(Thread, Action)>): State {
    if actions == [] then s else
      Step(Run(s, actions[..|actions| - 1]), actions[|actions| - 1].0, actions[|actions| - 1].1)
  }

  /** The thread that took the flag, as long as it has not published. */
  predicate Busy(p: Place) { p.Constructing? || p.AtStore? }

  ghost predicate Valid(s: State) {
    // the object and the count of constructions go together
    && (s.instance.None? ==> s.constructed == []) && (s.instance.Some? ==> s.constructed == [s.instance.value])
    // the flag says how far the one construction has come
    && (s.flag.Uninitialized? ==> s.instance.None? && forall t :: t in s.places ==> !Busy(s.places[t]))
    && (s.flag.Initialized? ==> s.instance.Some? && forall t :: t in s.places ==> !Busy(s.places[t]))
    && (forall t, u :: t in s.places && u in s.places && Busy(s.places[t]) && Busy(s.places[u]) ==> t == u)
    // a throw leaves the flag taken with nobody at work
    && (s.threw ==> s.flag.Initializing? && s.instance.None? && forall t :: t in s.places ==> !Busy(s.places[t]))
    && (forall t :: t in s.places ==>
          match s.places[t]
          case Constructing(_) => s.instance.None?
          case AtStore(_) => s.instance.Some?
          case InitializeReturned => s.flag.Initialized?
          case GetReturned(r) => s.flag.Initialized? && r == s.instance
          case _ => true)
  }

  lemma StepKeepsInstance(s: State, t: Thread, a: Action)
    requires Valid(s)
    ensures s.instance.Some? ==> Step(s, t, a).instance == s.instance
    ensures s.flag.Initialized? ==> Step(s, t, a).flag.Initialized?
  {}

  lemma StepKeepsValid(s: State, t: Thread, a: Action)
    requires Valid(s)
    ensures Valid(Step(s, t, a))
  {}

  lemma {:induction false} RunKeepsValid(actions: seq<(Thread, Action)>)
    ensures Valid(Run(START, actions))
  {
    if actions == [] {
    } else {
      RunKeepsValid(actions[..|actions| - 1]);
      var last := actions[|actions| - 1];
      StepKeepsValid(Run(START, actions[..|actions| - 1]), last.0, last.1);
    }
  }

  /** In every interleaving the configuration is constructed at most once, and every call that has
      returned has seen INITIALIZED; every `getInstance` returned that one object. */
  lemma ConstructedOnce(actions: seq<(Thread, Action)>, t: Thread)
    ensures var s := Run(START, actions);
            && |s.constructed| <= 1
            && (At(s, t).InitializeReturned? ==> s.flag.Initialized? && s.instance.Some?)
            && (At(s, t).GetReturned? ==> At(s, t).result.Some? && s.constructed == [At(s, t).result.value])
  {
    RunKeepsValid(actions);
  }

  /** The instance is never replaced. */
  lemma {:induction false} NeverReplaced(actions: seq<(Thread, Action)>, more: seq<(Thread, Action)>)
    ensures var s, s' := Run(START, actions), Run(START, actions + more);
            s.instance.Some? ==> s'.instance == s.instance
  {
    if more == [] {
      assert actions + more == actions;
    } else {
      var some, last := more[..|more| - 1], more[|more| - 1];
      NeverReplaced(actions, some);
      assert (actions + more)[..|actions + more| - 1] == actions + some;
      RunKeepsValid(actions + some);
      StepKeepsInstance(Run(START, actions + some), last.0, last.1);
    }
  }

  /** A call under way that can neither return nor throw. */
  predicate Stuck(p: Place) { p.AtCompareExchange? || p.Waiting? || p.AtLoad? }

  lemma StepAfterThrow(s: State, t: Thread, a: Action, u: Thread)
    requires Valid(s) && s.threw
    ensures var s' := Step(s, t, a);
            && s'.threw && (Stuck(At(s, u)) ==> Stuck(At(s', u)))
            && (a.CallInitialize? || a.CallGetInstance? ==> Stuck(At(s', t)))
  {}

  lemma AfterThrow(s: State, u: Thread)
    requires Valid(s) && s.threw
    ensures s.flag.Initializing? && s.constructed == [] && (At(s, u).Outside? || Stuck(At(s, u)))
  {}

  /** Thread `u` begins a call in these actions. */
  predicate Calls(actions: seq<(Thread, Action)>, u: Thread) {
    exists k :: 0 <= k < |actions| && actions[k].0 == u && !actions[k].1.Proceed?
  }

  lemma CallsLast(actions: seq<(Thread, Action)>, u: Thread)
    requires actions != [] && Calls(actions, u)
    ensures var last := actions[|actions| - 1];
            Calls(actions[..|actions| - 1], u) || (last.0 == u && !last.1.Proceed?)
  {
    var k :| 0 <= k < |actions| && actions[k].0 == u && !actions[k].1.Proceed?;
    if k < |actions| - 1 { assert actions[..|actions| - 1][k] == actions[k]; }
  }

  /** If the constructor ever throws, then from there on, whatever any thread does: the flag stays
      INITIALIZING and nothing is constructed; no call of any thread has returned; and a thread that has
      begun a call, the one that caught the exception included, never gets out of it. */
  lemma {:induction false} ThrowBlocksForever(
      actions: seq<(Thread, Action)>, more: seq<(Thread, Action)>, u: Thread)
    requires Run(START, actions).threw
    ensures var s, s' := Run(START, actions), Run(START, actions + more);
            && s'.threw && s'.flag.Initializing? && s'.constructed == []
            && (At(s', u).Outside? || Stuck(At(s', u)))
            && (Stuck(At(s, u)) || Calls(more, u) ==> Stuck(At(s', u)))
  {
    hide Step; hide Valid; hide At; hide Stuck;
    var s := Run(START, actions);
    if more == [] {
      assert actions + more == actions;
      RunKeepsValid(actions);
      AfterThrow(s, u);
    } else {
      var some, last := more[..|more| - 1], more[|more| - 1];
      ThrowBlocksForever(actions, some, u);
      assert (actions + more)[..|actions + more| - 1] == actions + some;
      RunKeepsValid(actions + some);
      StepAfterThrow(Run(START, actions + some), last.0, last.1, u);
      RunKeepsValid(actions + more);
      AfterThrow(Run(START, actions + more), u);
      if Calls(more, u) { CallsLast(more, u); }
    }
  }

  // ------------------------------------------------------------------------- calls do return

  /** Somebody is at work while the flag says so, and nobody waits before it does. */
  ghost predicate Moving(s: State) {
    && (s.flag.Initializing? && !s.threw ==> exists t :: t in s.places && Busy(s.places[t]))
    && (forall t :: t in s.places && s.places[t].Waiting? ==> !s.flag.Uninitialized?)
  }

  lemma StepKeepsMoving(s: State, t: Thread, a: Action)
    requires Valid(s) && Moving(s)
    ensures Moving(Step(s, t, a))
  {
    var s' := Step(s, t, a);
    if s'.flag.Initializing? && !s'.threw {
      if s.flag.Initializing? {
        var u :| u in s.places && Busy(s.places[u]);
        assert u in s'.places && Busy(s'.places[u]);
      } else {
        assert t in s'.places && Busy(s'.places[t]);
      }
    }
  }

  lemma {:induction false} RunKeepsMoving(actions: seq<(Thread, Action)>)
    ensures Moving(Run(START, actions))
  {
    if actions == [] {
    } else {
      var front, last := actions[..|actions| - 1], actions[|actions| - 1];
      RunKeepsMoving(front);
      RunKeepsValid(front);
      StepKeepsMoving(Run(START, front), last.0, last.1);
    }
  }

  lemma {:induction false} RunAppend(s: State, a: seq<(Thread, Action)>, b: seq<(Thread, Action)>)
    ensures Run(s, a + b) == Run(Run(s, a), b)
  {
    if b == [] {
      assert a + b == a;
    } else {
      RunAppend(s, a, b[..|b| - 1]);
      assert (a + b)[..|a + b| - 1] == a + b[..|b| - 1];
    }
  }

  /** The thread alone, `n` operations of it; a constructor yields `o`. */
  function Alone(t: Thread, n: nat, o: Object): seq<(Thread, Action)> { seq(n, _ => (t, Proceed(Some(o)))) }

  lemma {:induction false} AloneStep(s: State, t: Thread, n: nat, o: Object)
    ensures Run(s, Alone(t, 0, o)) == s
    ensures Run(s, Alone(t, n + 1, o)) == Step(Run(s, Alone(t, n, o)), t, Proceed(Some(o)))
  {
    hide Step;
    assert Alone(t, n + 1, o)[..n] == Alone(t, n, o);
  }

  /** The call ends where it was made to: `initialize` for its caller, `getInstance` for its own. */
  predicate Returned(before: Place, after: Place) {
    if before.AtLoad? || (!Idle(before) && before.nested) then after.GetReturned? else after.InitializeReturned?
  }

  /** A thread at work publishes. */
  lemma Publishes(s: State, u: Thread, o: Object) returns (n: nat)
    requires Valid(s) && u in s.places && Busy(s.places[u])
    ensures n <= 2
    ensures var s' := Run(s, Alone(u, n, o));
            s'.flag.Initialized? && forall t :: t != u ==> At(s', t) == At(s, t)
    ensures var s' := Run(s, Alone(u, n, o)); At(s', u).Waiting? && At(s', u).nested == s.places[u].nested
  {
    AloneStep(s, u, 0, o);
    AloneStep(s, u, 1, o);
    n := if s.places[u].Constructing? then 2 else 1;
  }

  /** Once the flag is INITIALIZED, a call returns after at most three operations of its own thread. */
  lemma ReturnsOnceInitialized(s: State, t: Thread, o: Object) returns (n: nat)
    requires s.flag.Initialized? && !Idle(At(s, t)) && !Busy(At(s, t))
    ensures n <= 3 && Returned(At(s, t), At(Run(s, Alone(t, n, o)), t))
  {
    AloneStep(s, t, 0, o);
    AloneStep(s, t, 1, o);
    AloneStep(s, t, 2, o);
    match At(s, t)
    case AtLoad => n := 1;
    case Waiting(nested) => n := if nested then 2 else 1;
    case AtCompareExchange(nested) => n := if nested then 3 else 2;
  }

  /** A thread that finds the flag untouched takes it. */
  lemma Takes(s: State, t: Thread, o: Object) returns (n: nat)
    requires Valid(s) && Moving(s) && s.flag.Uninitialized? && !Idle(At(s, t))
    ensures n <= 2
    ensures var s' := Run(s, Alone(t, n, o));
            t in s'.places && Busy(s'.places[t]) && s'.places[t].nested == (At(s, t).AtLoad? || At(s, t).nested)
  {
    AloneStep(s, t, 0, o);
    AloneStep(s, t, 1, o);
    n := if At(s, t).AtLoad? then 2 else 1;
  }

  lemma {:induction false} RunFromKeepsValid(s: State, actions: seq<(Thread, Action)>)
    requires Valid(s)
    ensures Valid(Run(s, actions))
  {
    if actions == [] {
    } else {
      var last := actions[|actions| - 1];
      RunFromKeepsValid(s, actions[..|actions| - 1]);
      StepKeepsValid(Run(s, actions[..|actions| - 1]), last.0, last.1);
    }
  }

  /** Who brings the flag to INITIALIZED: the thread at work, or else the thread itself. */
  lemma Initializes(s: State, t: Thread, o: Object) returns (more: seq<(Thread, Action)>)
    requires Valid(s) && Moving(s) && !s.threw && !Idle(At(s, t))
    ensures |more| <= 4 && forall k :: 0 <= k < |more| ==> more[k].1 == Proceed(Some(o))
    ensures var s' := Run(s, more);
            && s'.flag.Initialized? && !Idle(At(s', t)) && !Busy(At(s', t))
            && forall p :: Returned(At(s', t), p) ==> Returned(At(s, t), p)
  {
    hide Run; hide Step; hide Valid;
    if s.flag.Initialized? {
      more := [];
      InitializedAlready(s, t);
      AloneStep(s, t, 0, o);
      assert Alone(t, 0, o) == [];
    } else if s.flag.Initializing? {
      var u :| u in s.places && Busy(s.places[u]);
      var n := Publishes(s, u, o);
      more := Alone(u, n, o);
      if t != u { OneAtWork(s, t, u); }
    } else {
      var n := Takes(s, t, o);
      var s1 := Run(s, Alone(t, n, o));
      RunFromKeepsValid(s, Alone(t, n, o));
      var m := Publishes(s1, t, o);
      more := Alone(t, n, o) + Alone(t, m, o);
      RunAppend(s, Alone(t, n, o), Alone(t, m, o));
    }
  }

  lemma InitializedAlready(s: State, t: Thread)
    requires Valid(s) && s.flag.Initialized?
    ensures !Busy(At(s, t))
  {}

  lemma OneAtWork(s: State, t: Thread, u: Thread)
    requires Valid(s) && t != u && u in s.places && Busy(s.places[u])
    ensures !Busy(At(s, t))
  {}

  /** Calls return: from every reachable state in which the constructor has not thrown, every call under way
      returns from its own function after some seven more operations at most. */
  lemma {:induction false} EveryCallCanReturn(actions: seq<(Thread, Action)>, t: Thread, o: Object)
    returns (more: seq<(Thread, Action)>)
    requires !Run(START, actions).threw && !Idle(At(Run(START, actions), t))
    ensures |more| <= 7 && forall k :: 0 <= k < |more| ==> more[k].1 == Proceed(Some(o))
    ensures Returned(At(Run(START, actions), t), At(Run(START, actions + more), t))
  {
    hide Run; hide Step; hide Returned; hide Idle;
    var s := Run(START, actions);
    RunKeepsValid(actions);
    RunKeepsMoving(actions);
    var first := Initializes(s, t, o);
    var n := ReturnsOnceInitialized(Run(s, first), t, o);
    more := first + Alone(t, n, o);
    RunAppend(s, first, Alone(t, n, o));
    RunAppend(START, actions, more);
  }

  /** What a call begins with. */
  lemma {:induction false} CallBegins(s: State, t: Thread)
    requires Idle(At(s, t))
    ensures At(Step(s, t, CallInitialize), t) == AtCompareExchange(false)
    ensures At(Step(s, t, CallGetInstance), t) == AtLoad
  {}
}
