/** What a client's run comes to, told from the completions alone: when it asks the check-in service, with
    what request, and which outcome its caller gets. */
module Exchange {
  import opened Text
  import opened Messages
  import opened Protocol
  import opened Honest
  import opened Client

  // --------------------------------------------------------------------------- waiting

  /** The completion is of the kind that the client waits for in this stage. */
  predicate Awaited(stage: Stage, c: Completion) {
    match stage
    case WritingIdRequest => c.Sent? || c.IoFailed?
    case ReadingIdReply => c.IdReply? || c.IoFailed?
    case WritingCheckin => c.Sent? || c.IoFailed?
    case ReadingSize => c.SizeLine? || c.IoFailed?
    case ReadingCheckinReply => c.CheckinReplyLine? || c.IoFailed?
    case WritingTicket => c.Sent? || c.IoFailed?
    case ReadingTicketReply => c.TicketReplyLine? || c.IoFailed?
    case _ => false
  }

  /** From position `i` on, the first completion that is awaited in this stage is at `k`. */
  predicate FirstAwaited(os: seq<Occurrence>, stage: Stage, i: nat, k: nat) {
    && i <= k < |os| && Awaited(stage, os[k].completion)
    && forall m :: i <= m < k ==> !Awaited(stage, os[m].completion)
  }

  /** Nothing happens to a client until what it waits for completes. */
  lemma {:induction false} Waits(my: Setup, start: State, os: seq<Occurrence>, i: nat, k: nat)
    requires i <= k <= |os|
    requires forall m :: i <= m < k ==> !Awaited(Run(my, start, os[..i]).stage, os[m].completion)
    ensures Run(my, start, os[..k]) == Run(my, start, os[..i])
  {
    hide Run; hide Awaited;
    if i < k {
      Waits(my, start, os, i, k - 1);
      RunStep(my, start, os, k - 1);
      NotAwaited(my, Run(my, start, os[..i]), os[k - 1]);
    }
  }

  lemma NotAwaited(my: Setup, s: State, o: Occurrence)
    requires !Awaited(s.stage, o.completion)
    ensures React(my, s, o) == s
  {}

  /** The client reaches the stage after `i` completions; the completion at `k` is the next that matters. */
  lemma ReactsAt(my: Setup, start: State, os: seq<Occurrence>, i: nat, k: nat)
    requires i <= |os| && FirstAwaited(os, Run(my, start, os[..i]).stage, i, k)
    ensures Run(my, start, os[..k + 1]) == React(my, Run(my, start, os[..i]), os[k])
  {
    hide Run; hide React; hide Awaited;
    Waits(my, start, os, i, k);
    RunStep(my, start, os, k);
  }

  /** Where the first awaited completion is, if there is one. */
  lemma {:induction false} FindAwaited(os: seq<Occurrence>, stage: Stage, i: nat) returns (k: nat)
    requires i <= |os|
    ensures i <= k <= |os| && forall m :: i <= m < k ==> !Awaited(stage, os[m].completion)
    ensures k < |os| ==> FirstAwaited(os, stage, i, k)
    decreases |os| - i
  {
    hide Awaited;
    if i == |os| || Awaited(stage, os[i].completion) {
      k := i;
    } else {
      k := FindAwaited(os, stage, i + 1);
    }
  }

  // ---------------------------------------------------------------- the first request

  /** What a client asks first: the ID service, with the names as the caller gave them, or the check-in
      service, with the ticket and the PIN; in both cases as itself, and dated now. */
  lemma {:induction false} FirstRequest(my: Setup, names: Names, idData: seq<byte>, ticket: string, pin: uint32,
                                        now: uint64, bytes: seq<byte>)
    ensures var s := CheckInStart(my, names, idData, now, bytes);
            Begun(s) && s.names == names && |s.written| == 1 && s.written[0].IdWrite? &&
            var r := s.written[0].idRequest;
            && r.body.clientId == my.device.clientId && r.body.timestamp == now && r.body.idData == idData
            && r.body.firstName == names.first && r.body.middleName == names.middle && r.body.lastName == names.last
            && r.signature == bytes
    ensures var s := VerifyStart(my, names, ticket, pin, now, bytes);
            Started(s) && s.stage.WritingTicket? && s.names == names && |s.written| == 1 && s.written[0].TicketWrite? &&
            var r := s.written[0].ticket;
            && r.body.clientId == my.device.clientId && r.body.timestamp == now
            && r.body.ticket == ticket && r.body.pin == pin && r.signature == bytes
  {}

  // --------------------------------------------------------------- the second request

  /** The ID reply is the completion at `k`: the ID request has been written at `j`, and in between neither
      a reply nor a failure has completed. */
  predicate IdReplyAt(os: seq<Occurrence>, j: nat, k: nat) {
    && FirstAwaited(os, WritingIdRequest, 0, j) && os[j].completion.Sent?
    && FirstAwaited(os, ReadingIdReply, j + 1, k) && os[k].completion.IdReply?
  }

  /** The reply is a statement that verifies under the ID service's key when it is read. */
  predicate Verified(my: Setup, o: Occurrence) {
    && o.completion.IdReply? && o.completion.id.Ok?
    && var id := o.completion.id.value;
       Signed(my.id, StatementBody(id.presented, id.voterId), id.signature) in o.signed
  }

  /** The request carries the statement that was read, its voter, the client's id, the time at which it was
      read, and the names that the caller gave, each in its place. */
  predicate Follows(my: Setup, names: Names, o: Occurrence, q: CheckinRequest)
    requires o.completion.IdReply? && o.completion.id.Ok?
  {
    var b := q.body;
    && b.verified == o.completion.id.value && b.voterId == o.completion.id.value.voterId
    && b.clientId == my.device.clientId && b.timestamp == o.now && q.signature == o.bytes
    && b.firstName == names.first && b.middleName == names.middle && b.lastName == names.last
  }

  /** A check of a voter has begun: only the ID request has been written. */
  predicate Begun(s: State) {
    s.stage.WritingIdRequest? && s.outcomes == [] && forall w :: w in s.written ==> w.IdWrite?
  }

  /** What is left to do after the ID reply writes nothing more. */
  predicate NoMoreWrites(stage: Stage) {
    !stage.WritingIdRequest? && !stage.ReadingIdReply?
  }

  lemma {:induction false} WrittenStays(my: Setup, start: State, os: seq<Occurrence>, k: nat)
    requires k <= |os| && NoMoreWrites(Run(my, start, os[..k]).stage)
    ensures Run(my, start, os).written == Run(my, start, os[..k]).written
    ensures NoMoreWrites(Run(my, start, os).stage)
    decreases |os|
  {
    if k == |os| {
      assert os[..k] == os;
    } else {
      var front := os[..|os| - 1];
      assert front[..k] == os[..k];
      WrittenStays(my, start, front, k);
    }
  }

  lemma {:induction false} EndStays(my: Setup, start: State, os: seq<Occurrence>, k: nat)
    requires k <= |os|
    requires Run(my, start, os[..k]).stage.Finished? || Run(my, start, os[..k]).stage.Crashed?
    ensures Run(my, start, os) == Run(my, start, os[..k])
    decreases |os|
  {
    if k == |os| {
      assert os[..k] == os;
    } else {
      var front := os[..|os| - 1];
      assert front[..k] == os[..k];
      EndStays(my, start, front, k);
    }
  }

  /** The state right after the ID reply, in the three ways it can go. */
  lemma AfterIdReply(my: Setup, start: State, os: seq<Occurrence>, j: nat, k: nat)
    requires Begun(start) && IdReplyAt(os, j, k)
    ensures var s, id := Run(my, start, os[..k + 1]), os[k].completion.id;
            if id.Err? then s == start.(stage := Crashed)
            else if !Verified(my, os[k]) then s.stage.Finished? && s.outcomes == [Outcome(false, "Invalid signature")]
                                              && s.written == start.written
            else s.stage.WritingCheckin? && exists q :: Follows(my, start.names, os[k], q) &&
                                                        s.written == start.written + [CheckinWrite(q)]
  {
    hide Run;
    assert os[..0] == [] && Run(my, start, []) == start by { RunNothing(my, start); }
    ReactsAt(my, start, os, 0, j);
    ReactsAt(my, start, os, j + 1, k);
    if Verified(my, os[k]) {
      var q := CheckinOf(my.device, start.names, os[k].now, os[k].completion.id.value, os[k].bytes);
      assert Follows(my, start.names, os[k], q);
    }
  }

  lemma RunNothing(my: Setup, start: State)
    ensures Run(my, start, []) == start
  {}

  /** A statement that verified was read. */
  ghost predicate StatementRead(my: Setup, os: seq<Occurrence>) {
    exists j: nat, k: nat :: IdReplyAt(os, j, k) && Verified(my, os[k])
  }

  /** Without it, no check-in request has been written. */
  lemma {:induction false} NothingWrittenOtherwise(my: Setup, start: State, os: seq<Occurrence>)
    requires Begun(start) && !StatementRead(my, os)
    ensures Run(my, start, os).written == start.written
  {
    hide Run; hide React; hide Awaited;
    assert os[..|os|] == os && os[..0] == [];
    RunNothing(my, start);
    var j := FindAwaited(os, WritingIdRequest, 0);
    if j == |os| {
      Waits(my, start, os, 0, j);
    } else {
      ReactsAt(my, start, os, 0, j);
      AfterWrite(my, start, os[j]);
      if os[j].completion.Sent? {
        var k := FindAwaited(os, ReadingIdReply, j + 1);
        if k == |os| {
          Waits(my, start, os, j + 1, k);
        } else {
          ReactsAt(my, start, os, j + 1, k);
          assert !Verified(my, os[k]) by { assert Verified(my, os[k]) ==> IdReplyAt(os, j, k); }
          NotVerified(my, Run(my, start, os[..j + 1]), os[k]);
          WrittenStays(my, start, os, k + 1);
        }
      } else {
        WrittenStays(my, start, os, j + 1);
      }
    }
  }

  lemma AfterWrite(my: Setup, s: State, o: Occurrence)
    requires s.stage.WritingIdRequest? && Awaited(s.stage, o.completion)
    ensures var s' := React(my, s, o);
            s'.written == s.written && if o.completion.Sent? then s'.stage.ReadingIdReply? else s'.stage.Finished?
  {}

  lemma NotVerified(my: Setup, s: State, o: Occurrence)
    requires s.stage.ReadingIdReply? && Awaited(s.stage, o.completion) && !Verified(my, o)
    ensures var s' := React(my, s, o); s'.written == s.written && NoMoreWrites(s'.stage)
  {}

  /** A check-in request is among the written messages if and only if a statement was read that verified
      under the ID service's key; there is one such request then, and it follows from the statement. */
  lemma {:induction false} CheckinWrittenIffVerified(my: Setup, start: State, os: seq<Occurrence>)
    requires Begun(start)
    ensures (exists q :: CheckinWrite(q) in Run(my, start, os).written) <==> StatementRead(my, os)
    ensures forall j: nat, k: nat :: IdReplyAt(os, j, k) && Verified(my, os[k]) ==>
              exists q :: Follows(my, start.names, os[k], q) &&
                          Run(my, start, os).written == start.written + [CheckinWrite(q)]
  {
    hide Run; hide Awaited;
    if !StatementRead(my, os) { NothingWrittenOtherwise(my, start, os); }
    forall j: nat, k: nat | IdReplyAt(os, j, k) && Verified(my, os[k])
      ensures exists q :: Follows(my, start.names, os[k], q) &&
                          Run(my, start, os).written == start.written + [CheckinWrite(q)]
    {
      WrittenAfterStatement(my, start, os, j, k);
    }
  }

  lemma WrittenAfterStatement(my: Setup, start: State, os: seq<Occurrence>, j: nat, k: nat)
    requires Begun(start) && IdReplyAt(os, j, k) && Verified(my, os[k])
    ensures exists q :: Follows(my, start.names, os[k], q) &&
                        Run(my, start, os).written == start.written + [CheckinWrite(q)]
  {
    hide Run; hide Follows;
    AfterIdReply(my, start, os, j, k);
    WrittenStays(my, start, os, k + 1);
  }

  /** If the statement does not verify, the one outcome is a failure and nothing more is written; if the
      reply cannot even be read, the client dies with its promise unset. */
  lemma {:induction false} UnverifiedEnds(my: Setup, start: State, os: seq<Occurrence>, j: nat, k: nat)
    requires Begun(start) && IdReplyAt(os, j, k) && !Verified(my, os[k])
    ensures var s := Run(my, start, os);
            && s.written == start.written
            && if os[k].completion.id.Ok? then s.stage.Finished? && s.outcomes == [Outcome(false, "Invalid signature")]
               else s.stage.Crashed? && s.outcomes == []
  {
    hide Run;
    AfterIdReply(my, start, os, j, k);
    EndStays(my, start, os, k + 1);
  }

  // ----------------------------------------------------------------------- the outcome

  /** What the caller is told when the chain ends with this completion. */
  function ToldBy(my: Setup, o: Occurrence): Outcome {
    match o.completion
    case CheckinReplyLine(Ok(r)) =>
      if Signed(my.service, CheckinReply(r.body), r.signature) !in o.signed then Outcome(false, "Invalid signature")
      else Outcome(r.body.approved, if r.body.approved then "" else "Rejected")
    case TicketReplyLine(Ok(r)) =>
      if Signed(my.service, TicketReply(r.body), r.signature) !in o.signed then Outcome(false, "Invalid signature")
      else Outcome(r.body.approved, r.body.secret)
    case TicketReplyLine(Err) => Outcome(false, "Error parsing server response")
    case IdReply(_) => Outcome(false, "Invalid signature")
    case _ => Outcome(false, "Network error")
  }

  /** The outcome is told by the completion that ended the chain. */
  lemma {:induction false} OutcomeExplained(my: Setup, start: State, os: seq<Occurrence>) returns (k: nat)
    requires Started(start) && Run(my, start, os).stage.Finished?
    ensures k < |os| && Awaited(Run(my, start, os[..k]).stage, os[k].completion)
    ensures Run(my, start, os).outcomes == [ToldBy(my, os[k])]
  {
    var front, last := os[..|os| - 1], os[|os| - 1];
    SetAtMostOnce(my, start, front);
    if Run(my, start, front).stage.Finished? {
      k := OutcomeExplained(my, start, front);
      assert front[..k] == os[..k];
    } else {
      k := |os| - 1;
    }
  }

  /** A failure of the operation that is pending ends the chain with a network error. */
  lemma {:induction false} FailureEnds(my: Setup, start: State, os: seq<Occurrence>, k: nat)
    requires Started(start) && k < |os| && os[k].completion.IoFailed?
    requires var s := Run(my, start, os[..k]); !s.stage.Finished? && !s.stage.Crashed?
    ensures Run(my, start, os).stage.Finished? && Run(my, start, os).outcomes == [Outcome(false, "Network error")]
  {
    SetAtMostOnce(my, start, os[..k]);
    RunStep(my, start, os, k);
    EndStays(my, start, os, k + 1);
  }
}
