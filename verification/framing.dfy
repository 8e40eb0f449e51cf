/** How messages travel: `length '\n' payload '\n'`, cut into arbitrary chunks by the stream. */
module Framing {
  import opened Text

  /** What the connection waits for; `Stopped` means that no read is armed any more. */
  datatype Phase = AwaitSize | AwaitPayload(size: nat) | Stopped

  /** One connection: the bytes received but not consumed, and the payload lines handed on so far. */
  datatype Reader = Reader(buffer: string, phase: Phase, delivered: seq<string>)

  /** Whether the handler of the latest message of a connection starts the next read, given all the
      messages of the connection so far. The check-in handler does, unless it has no key for the sender;
      the ticket handler does not, and neither does a message that cannot be read. */
  type Rearm = seq<string> -> bool

  const FRESH: Reader := Reader("", AwaitSize, [])

  /** What the sender writes. */
  function Frame(payload: string): string { Dec(|payload|) + "\n" + payload + "\n" }

  function Frames(payloads: seq<string>): string {
    if payloads == [] then "" else Frames(payloads[..|payloads| - 1]) + Frame(payloads[|payloads| - 1])
  }

  /** One completed `async_read_until`: the size line, or the payload line. A size line that is not a
      number throws, and a length that disagrees ends the reading. The payload is handed on together
      with its line feed. */
  function OnLine(phase: Phase, line: string, delivered: seq<string>, rearm: Rearm): (Phase, seq<string>)
    requires !phase.Stopped?
  {
    match phase
    case AwaitSize =>
      (match ParseUlong(line) case Number(n) => AwaitPayload(n) case _ => Stopped, delivered)
    case AwaitPayload(n) =>
      if n != |line| then (Stopped, delivered) else
        var now := delivered + [line + "\n"];
        (if rearm(now) then AwaitSize else Stopped, now)
  }

  /** Consumes every complete line that a read is waiting for. */
  function Drain(r: Reader, rearm: Rearm): Reader
    decreases |r.buffer|
  {
    var p := Find(r.buffer, '\n');
    if r.phase.Stopped? || p == |r.buffer| then r else
      var (phase, delivered) := OnLine(r.phase, r.buffer[..p], r.delivered, rearm);
      Drain(Reader(r.buffer[p + 1..], phase, delivered), rearm)
  }

  /** A chunk arrives. */
  function Feed(r: Reader, chunk: string, rearm: Rearm): Reader {
    Drain(r.(buffer := r.buffer + chunk), rearm)
  }

  function FeedAll(r: Reader, chunks: seq<string>, rearm: Rearm): Reader {
    if chunks == [] then r else Feed(FeedAll(r, chunks[..|chunks| - 1], rearm), chunks[|chunks| - 1], rearm)
  }

  function Concat(chunks: seq<string>): string {
    if chunks == [] then "" else Concat(chunks[..|chunks| - 1]) + chunks[|chunks| - 1]
  }

  // ------------------------------------------------------------------ cutting does not matter

  /** The first line and what follows it. */
  lemma FirstLine(s: string) returns (head: string, tail: string)
    requires Find(s, '\n') < |s|
    ensures s == head + ['\n'] + tail && '\n' !in head && head == s[..Find(s, '\n')] && tail == s[Find(s, '\n') + 1..]
  {
    var p := Find(s, '\n');
    head, tail := s[..p], s[p + 1..];
  }

  /** The connection once the callback for the line `head` has run. */
  function After(head: string, tail: string, phase: Phase, delivered: seq<string>, rearm: Rearm): Reader
    requires !phase.Stopped?
  {
    var (phase', delivered') := OnLine(phase, head, delivered, rearm);
    Reader(tail, phase', delivered')
  }

  lemma DrainStep(head: string, tail: string, phase: Phase, delivered: seq<string>, rearm: Rearm)
    requires !phase.Stopped? && '\n' !in head
    ensures Drain(Reader(head + ['\n'] + tail, phase, delivered), rearm)
         == Drain(After(head, tail, phase, delivered, rearm), rearm)
  {
    FindAt(head, '\n', tail);
  }

  /** Draining first and receiving more then is receiving everything at once. */
  lemma {:induction false} DrainThenFeed(r: Reader, more: string, rearm: Rearm)
    ensures Feed(Drain(r, rearm), more, rearm) == Feed(r, more, rearm)
    decreases |r.buffer|
  {
    if !r.phase.Stopped? && Find(r.buffer, '\n') < |r.buffer| {
      var head, tail := FirstLine(r.buffer);
      FeedLine(head, tail, r.phase, r.delivered, more, rearm);
      DrainThenFeed(After(head, tail, r.phase, r.delivered, rearm), more, rearm);
    }
  }

  lemma FeedLine(head: string, tail: string, phase: Phase, delivered: seq<string>, more: string, rearm: Rearm)
    requires !phase.Stopped? && '\n' !in head
    ensures var r := Reader(head + ['\n'] + tail, phase, delivered);
            var next := After(head, tail, phase, delivered, rearm);
            Drain(r, rearm) == Drain(next, rearm) && Feed(r, more, rearm) == Feed(next, more, rearm)
  {
    hide Drain;
    DrainStep(head, tail, phase, delivered, rearm);
    DrainStep(head, tail + more, phase, delivered, rearm);
    assert head + ['\n'] + tail + more == head + ['\n'] + (tail + more);
  }

  lemma FeedTwice(r: Reader, a: string, b: string, rearm: Rearm)
    ensures Feed(Feed(r, a, rearm), b, rearm) == Feed(r, a + b, rearm)
  {
    DrainThenFeed(r.(buffer := r.buffer + a), b, rearm);
    assert r.buffer + a + b == r.buffer + (a + b);
  }

  /** For every byte stream, well formed or not: however it is cut into chunks, the connection
      ends in the state in which it would be if the stream had come in one piece. */
  lemma {:induction false} ChunksDoNotMatter(chunks: seq<string>, rearm: Rearm)
    ensures FeedAll(FRESH, chunks, rearm) == Feed(FRESH, Concat(chunks), rearm)
  {
    if chunks == [] {
      assert FRESH.buffer + "" == FRESH.buffer;
    } else {
      ChunksDoNotMatter(chunks[..|chunks| - 1], rearm);
      FeedTwice(FRESH, Concat(chunks[..|chunks| - 1]), chunks[|chunks| - 1], rearm);
    }
  }

  // -------------------------------------------------------------------- what is delivered

  lemma DecIsOneLine(n: nat)
    ensures '\n' !in Dec(n)
  {}

  predicate Sendable(payload: string) { '\n' !in payload && |payload| < TWO_64 }

  /** A frame at the front of the buffer is delivered, and the rest is read as if it came first. */
  lemma DrainFrame(payload: string, rest: string, delivered: seq<string>, rearm: Rearm)
    requires Sendable(payload)
    ensures Drain(Reader(Frame(payload) + rest, AwaitSize, delivered), rearm)
         == Drain(Reader(rest, if rearm(delivered + [payload + "\n"]) then AwaitSize else Stopped,
                         delivered + [payload + "\n"]), rearm)
  {
    var size, tail := Dec(|payload|), payload + "\n" + rest;
    assert Frame(payload) + rest == size + ['\n'] + tail;
    assert tail == payload + ['\n'] + rest;
    DecIsOneLine(|payload|);
    ParseUlongOfWhole(|payload|);
    DrainStep(size, tail, AwaitSize, delivered, rearm);
    DrainStep(payload, rest, AwaitPayload(|payload|), delivered, rearm);
  }

  function WithLineFeeds(payloads: seq<string>): seq<string> {
    if payloads == [] then [] else
      WithLineFeeds(payloads[..|payloads| - 1]) + [payloads[|payloads| - 1] + "\n"]
  }

  /** Every one of these messages is answered by a new read. */
  ghost predicate RearmedAfterEach(payloads: seq<string>, rearm: Rearm) {
    forall k :: 0 < k <= |payloads| ==> rearm(WithLineFeeds(payloads[..k]))
  }

  lemma {:induction false} DrainFrames(payloads: seq<string>, rest: string, rearm: Rearm)
    requires RearmedAfterEach(payloads, rearm) && forall p :: p in payloads ==> Sendable(p)
    ensures Drain(Reader(Frames(payloads) + rest, AwaitSize, []), rearm)
         == Drain(Reader(rest, AwaitSize, WithLineFeeds(payloads)), rearm)
  {
    hide Drain; hide Frame; hide Sendable;
    if payloads == [] {
      assert Frames(payloads) + rest == rest;
    } else {
      var front, last := payloads[..|payloads| - 1], payloads[|payloads| - 1];
      assert last in payloads;
      assert forall k :: 0 < k <= |front| ==> front[..k] == payloads[..k];
      assert payloads[..|payloads|] == payloads;
      DrainFrames(front, Frame(last) + rest, rearm);
      assert Frames(payloads) + rest == Frames(front) + (Frame(last) + rest);
      DrainFrame(last, rest, WithLineFeeds(front), rearm);
    }
  }

  /** For every list of payloads without line feeds and every way of cutting their frames into
      chunks, a connection whose reads are re-armed hands on exactly that list, and waits for more. */
  lemma {:induction false} EveryFrameDelivered(payloads: seq<string>, chunks: seq<string>, rearm: Rearm)
    requires RearmedAfterEach(payloads, rearm) && forall p :: p in payloads ==> Sendable(p)
    requires Concat(chunks) == Frames(payloads)
    ensures FeedAll(FRESH, chunks, rearm) == Reader("", AwaitSize, WithLineFeeds(payloads))
  {
    hide Drain; hide Frames; hide Concat; hide FeedAll; hide RearmedAfterEach; hide Sendable; hide WithLineFeeds;
    hide Feed;
    ChunksDoNotMatter(chunks, rearm);
    FeedFresh(Frames(payloads), rearm);
    assert Frames(payloads) + "" == Frames(payloads);
    DrainFrames(payloads, "", rearm);
    DrainNothing(AwaitSize, WithLineFeeds(payloads), rearm);
  }

  lemma FeedFresh(text: string, rearm: Rearm)
    ensures Feed(FRESH, text, rearm) == Drain(Reader(text, AwaitSize, []), rearm)
  {
    assert FRESH.buffer + text == text;
  }

  lemma DrainNothing(phase: Phase, delivered: seq<string>, rearm: Rearm)
    ensures Drain(Reader("", phase, delivered), rearm) == Reader("", phase, delivered)
  {}

  lemma DrainStopped(buffer: string, delivered: seq<string>, rearm: Rearm)
    ensures Drain(Reader(buffer, Stopped, delivered), rearm) == Reader(buffer, Stopped, delivered)
  {}

  /** The size line is not the length of the payload line. */
  predicate Disagrees(size: string, payload: string) {
    match ParseUlong(size) case Number(n) => n != |payload| case _ => true
  }

  lemma DrainBadFrame(size: string, payload: string, rest: string, delivered: seq<string>, rearm: Rearm)
    requires '\n' !in size && '\n' !in payload && Disagrees(size, payload)
    ensures var r := Drain(Reader(size + "\n" + payload + "\n" + rest, AwaitSize, delivered), rearm);
            r.delivered == delivered && r.phase == Stopped
  {
    var tail := payload + ['\n'] + rest;
    assert size + "\n" + payload + "\n" + rest == size + ['\n'] + tail;
    DrainStep(size, tail, AwaitSize, delivered, rearm);
    if ParseUlong(size).Number? {
      DrainStep(payload, rest, AwaitPayload(ParseUlong(size).n), delivered, rearm);
    }
  }

  /** A frame whose length disagrees is not delivered, and neither is anything after it, however the
      stream is cut. */
  lemma {:induction false} NothingAfterBadFrame(
      payloads: seq<string>, size: string, payload: string, rest: string, chunks: seq<string>, rearm: Rearm)
    requires RearmedAfterEach(payloads, rearm) && forall p :: p in payloads ==> Sendable(p)
    requires '\n' !in size && '\n' !in payload && Disagrees(size, payload)
    requires Concat(chunks) == Frames(payloads) + (size + "\n" + payload + "\n" + rest)
    ensures FeedAll(FRESH, chunks, rearm).delivered == WithLineFeeds(payloads)
    ensures FeedAll(FRESH, chunks, rearm).phase == Stopped
  {
    hide Drain; hide Frames; hide Concat; hide FeedAll; hide RearmedAfterEach; hide Sendable; hide WithLineFeeds;
    hide Disagrees; hide Feed;
    var bad := size + "\n" + payload + "\n" + rest;
    ChunksDoNotMatter(chunks, rearm);
    FeedFresh(Frames(payloads) + bad, rearm);
    DrainFrames(payloads, bad, rearm);
    DrainBadFrame(size, payload, rest, WithLineFeeds(payloads), rearm);
  }

  /** The first message whose handler does not start a new read is the last one of the connection: it
      is handed on, and nothing after it is ever read. A trusted client's first message is such a one. */
  lemma {:induction false} LastMessageOfConnection(
      payloads: seq<string>, payload: string, rest: string, chunks: seq<string>, rearm: Rearm)
    requires RearmedAfterEach(payloads, rearm) && !rearm(WithLineFeeds(payloads + [payload]))
    requires Sendable(payload) && forall p :: p in payloads ==> Sendable(p)
    requires Concat(chunks) == Frames(payloads) + (Frame(payload) + rest)
    ensures FeedAll(FRESH, chunks, rearm) == Reader(rest, Stopped, WithLineFeeds(payloads + [payload]))
  {
    hide Drain; hide Frames; hide Frame; hide Concat; hide FeedAll; hide RearmedAfterEach; hide Sendable; hide Feed;
    ChunksDoNotMatter(chunks, rearm);
    FeedFresh(Frames(payloads) + (Frame(payload) + rest), rearm);
    DrainFrames(payloads, Frame(payload) + rest, rearm);
    DrainFrame(payload, rest, WithLineFeeds(payloads), rearm);
    assert (payloads + [payload])[..|payloads|] == payloads;
    DrainStopped(rest, WithLineFeeds(payloads + [payload]), rearm);
  }

  // ------------------------------------------------------------------------ the connection

  class Connection {
    var buffer: string
    var phase: Phase
    var delivered: seq<string>
    const rearm: Rearm

    ghost function State(): Reader reads this { Reader(buffer, phase, delivered) }

    /** `start_size_read` on a new connection. */
    constructor (rearm: Rearm)
      ensures State() == FRESH && this.rearm == rearm
    {
      this.buffer, this.phase, this.delivered, this.rearm := "", AwaitSize, [], rearm;
    }

    /** The completion handler of a read: the size line, or the payload line. */
    method Callback(line: string)
      requires !phase.Stopped?
      modifies this`phase, this`delivered
      ensures (phase, delivered) == OnLine(old(phase), line, old(delivered), rearm)
    {
      match phase
      case AwaitSize =>
        var size := ParseUlong(line);
        phase := if size.Number? then AwaitPayload(size.n) else Stopped;
      case AwaitPayload(n) =>
        if n == |line| {
          delivered := delivered + [line + "\n"];
          phase := if rearm(delivered) then AwaitSize else Stopped;
        } else {
          phase := Stopped;
        }
    }

    /** The bytes of one chunk, and the callbacks that they complete. */
    method Receive(chunk: string)
      modifies this
      ensures State() == Feed(old(State()), chunk, rearm)
    {
      buffer := buffer + chunk;
      while !phase.Stopped? && '\n' in buffer
        invariant Drain(State(), rearm) == Feed(old(State()), chunk, rearm)
        decreases |buffer|
      {
        ghost var head, tail := FirstLine(buffer);
        DrainStep(head, tail, phase, delivered, rearm);
        var p := Find(buffer, '\n');
        var line := buffer[..p];
        buffer := buffer[p + 1..];
        Callback(line);
      }
    }
  }
}
