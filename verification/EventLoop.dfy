/** The daemon's event loop and run, over a clock, a listener with connections still to come
    and callbacks on an application state. */
module EventLoop {
  import opened Wrappers
  import opened Frames

  const TICKS_PER_MS := 1_000_000
  const I32_MAX := 0x7fff_ffff

  /** on_request: may change the state even when it fails; the error is its message. */
  type Handler<!S> = (S, bytes) -> (S, Result<bytes, bytes>)

  /** A client's connection: the bytes it sends, how reads and writes are chunked, and whether
      the accepted stream can be switched to blocking mode. */
  datatype Connection = Connection(input: bytes, readScript: seq<Io>, writeScript: seq<Io>, canBlock: bool)

  datatype LoopError =
    | PollFailed
    | AcceptFailed
    | BlockingFailed
    | Unreadable(e: FrameError)
    | Unwritable(e: FrameError)

  // ---- What one frame and a list of connections do ------------------------

  function Ascii(s: string): bytes {
    seq(|s|, i requires 0 <= i < |s| => if s[i] < 256 as char then s[i] as int else 63)
  }

  function DebugName(kind: FrameKind): string {
    match kind
    case Request => "Request"
    case Response => "Response"
    case Ping => "Ping"
    case Pong => "Pong"
    case Error => "Error"
    case Shutdown => "Shutdown"
    case ShutdownAck => "ShutdownAck"
  }

  /** The state after a frame. */
  function StateAfter<S>(h: Handler<S>, s: S, f: Frame): S {
    if f.kind == Request then h(s, f.payload).0 else s
  }

  /** The answer to a frame. */
  function ReplyTo<S>(h: Handler<S>, s: S, f: Frame): Frame {
    match f.kind
    case Ping => Frame(Pong, 0, [])
    case Shutdown => Frame(ShutdownAck, 0, [])
    case Request =>
      (match h(s, f.payload).1
       case Ok(response) => Frame(Response, 0, response)
       case Err(message) => Frame(Error, 0, message))
    case other => Frame(Error, 0, Ascii("unexpected frame kind: " + DebugName(other)))
  }

  /** A frame that was read, the answer to it, and whether writing the answer succeeded. */
  datatype Exchange = Exchange(frame: Frame, reply: Frame, delivered: bool)

  datatype End = Open | ShutdownSeen | Broken(error: LoopError)

  datatype Service<S> = Service(state: S, log: seq<Exchange>, end: End)

  /** One accepted connection; write is the result of writing the answer. */
  function ServeOne<S>(h: Handler<S>, max: nat, v: Service<S>, c: Connection,
                       write: Result<(), FrameError>): Service<S>
  {
    if v.end != Open then v
    else if !c.canBlock then v.(end := Broken(BlockingFailed))
    else match ParseFrame(c.input, max)
      case Err(e) => v.(end := Broken(Unreadable(e)))
      case Ok(p) =>
        Service(StateAfter(h, v.state, p.frame),
                v.log + [Exchange(p.frame, ReplyTo(h, v.state, p.frame), write.Ok?)],
                if write.Err? then Broken(Unwritable(write.error))
                else if p.frame.kind == Shutdown then ShutdownSeen else Open)
  }

  /** Serving connections in accept order. */
  function Serve<S>(h: Handler<S>, max: nat, s: S, cs: seq<Connection>, ws: seq<Result<(), FrameError>>): Service<S>
    requires |cs| == |ws|
  {
    if cs == [] then Service(s, [], Open)
    else ServeOne(h, max, Serve(h, max, s, cs[..|cs| - 1], ws[..|ws| - 1]), cs[|cs| - 1], ws[|ws| - 1])
  }

  /** on_request folded over payloads. */
  function Fold<S>(h: Handler<S>, s: S, payloads: seq<bytes>): S {
    if payloads == [] then s else h(Fold(h, s, payloads[..|payloads| - 1]), payloads[|payloads| - 1]).0
  }

  /** The payloads of the Request frames read, in order. */
  function Requests(log: seq<Exchange>): seq<bytes> {
    if log == [] then []
    else
      var f := log[|log| - 1].frame;
      Requests(log[..|log| - 1]) + (if f.kind == Request then [f.payload] else [])
  }

  lemma RequestsSnoc(log: seq<Exchange>, x: Exchange)
    ensures Requests(log + [x]) == if x.frame.kind == Request then Requests(log) + [x.frame.payload] else Requests(log)
  {
    assert (log + [x])[..|log|] == log;
    assert Requests(log) + [] == Requests(log);
  }

  lemma FoldSnoc<S>(h: Handler<S>, s: S, payloads: seq<bytes>, p: bytes)
    ensures Fold(h, s, payloads + [p]) == h(Fold(h, s, payloads), p).0
  {
    assert (payloads + [p])[..|payloads|] == payloads;
  }

  lemma OneIsFold<S>(h: Handler<S>, max: nat, s: S, v: Service<S>, c: Connection, w: Result<(), FrameError>)
    requires v.state == Fold(h, s, Requests(v.log))
    ensures var v' := ServeOne(h, max, v, c, w); v'.state == Fold(h, s, Requests(v'.log))
  {
    if v.end == Open && c.canBlock && ParseFrame(c.input, max).Ok? {
      var f := ParseFrame(c.input, max).value.frame;
      RequestsSnoc(v.log, Exchange(f, ReplyTo(h, v.state, f), w.Ok?));
      FoldSnoc(h, s, Requests(v.log), f.payload);
    }
  }

  /** The loop is a fold of the handler over the requests, failing ones included. */
  lemma {:induction false} ServeIsFold<S>(h: Handler<S>, max: nat, s: S, cs: seq<Connection>,
                                             ws: seq<Result<(), FrameError>>)
    requires |cs| == |ws|
    ensures var v := Serve(h, max, s, cs, ws); v.state == Fold(h, s, Requests(v.log))
  {
    if cs != [] {
      ServeIsFold(h, max, s, cs[..|cs| - 1], ws[..|ws| - 1]);
      OneIsFold(h, max, s, Serve(h, max, s, cs[..|cs| - 1], ws[..|ws| - 1]), cs[|cs| - 1], ws[|ws| - 1]);
    }
  }

  /** Every frame read is the frame its connection sent, in accept order. */
  ghost predicate FramesMatch(max: nat, cs: seq<Connection>, log: seq<Exchange>) {
    |log| <= |cs|
    && forall i | 0 <= i < |log| ::
         ParseFrame(cs[i].input, max).Ok? && log[i].frame == ParseFrame(cs[i].input, max).value.frame
  }

  /** Every frame is answered once, in the state that all requests before it produced. */
  ghost predicate RepliesMatch<S>(h: Handler<S>, s: S, log: seq<Exchange>) {
    forall i | 0 <= i < |log| :: log[i].reply == ReplyTo(h, Fold(h, s, Requests(log[..i])), log[i].frame)
  }

  ghost predicate Answered<S>(h: Handler<S>, max: nat, s: S, cs: seq<Connection>, log: seq<Exchange>) {
    FramesMatch(max, cs, log) && RepliesMatch(h, s, log)
  }

  /** The first n frames were answered, and the answers delivered, without a Shutdown. */
  ghost predicate GoingOn(log: seq<Exchange>, n: int)
    requires n <= |log|
  {
    forall i | 0 <= i < n :: log[i].delivered && log[i].frame.kind != Shutdown
  }

  /** All answers but the last were delivered and no frame follows a Shutdown frame. The
      service ends early only by a Shutdown frame, by an answer that could not be written, or
      by a stream that could not be switched to blocking or read, and is reported as that. */
  ghost predicate EndsOnlyBy(max: nat, cs: seq<Connection>, log: seq<Exchange>, end: End) {
    var n := |log|;
    && n <= |cs| && GoingOn(log, n - 1)
    && match end
       case Open => n == |cs| && GoingOn(log, n)
       case ShutdownSeen => n > 0 && log[n - 1].delivered && log[n - 1].frame.kind == Shutdown
       case Broken(Unwritable(_)) => n > 0 && !log[n - 1].delivered
       case Broken(Unreadable(e)) =>
         n < |cs| && GoingOn(log, n) && cs[n].canBlock && ParseFrame(cs[n].input, max) == Err(e)
       case Broken(BlockingFailed) => n < |cs| && GoingOn(log, n) && !cs[n].canBlock
       case Broken(_) => false
  }

  /** What went out on the connection of an exchange: the answer, or if writing it failed a part
      of it. */
  predicate WireOne(x: Exchange, data: bytes) {
    if Sendable(x.reply) then data <= EncodeFrame(x.reply) && (x.delivered ==> data == EncodeFrame(x.reply))
    else data == [] && !x.delivered
  }

  /** What went out on each connection: its answer and nothing else, and nothing at all if no
      frame was read from it. */
  ghost predicate OnWire(log: seq<Exchange>, sent: seq<bytes>) {
    && |log| <= |sent|
    && (forall i {:trigger WireOne(log[i], sent[i])} | 0 <= i < |log| :: WireOne(log[i], sent[i]))
    && (forall i | |log| <= i < |sent| :: sent[i] == [])
  }

  /** How one more connection may change the log, and what it puts on its wire. */
  predicate WireStep<S>(v: Service<S>, v': Service<S>, data: bytes) {
    if v'.log == v.log then data == [] && v'.end != Open
    else |v'.log| == |v.log| + 1 && v'.log[..|v.log|] == v.log && WireOne(v'.log[|v.log|], data)
  }

  lemma WireStepKeeps<S>(v: Service<S>, v': Service<S>, sent: seq<bytes>, data: bytes)
    requires OnWire(v.log, sent) && |v.log| == |sent| && WireStep(v, v', data)
    ensures OnWire(v'.log, sent + [data]) && (v'.end == Open ==> |v'.log| == |sent| + 1)
  {
    forall i | 0 <= i < |v'.log| ensures WireOne(v'.log[i], (sent + [data])[i]) {
      if i < |v.log| {
        assert v'.log == v.log || v'.log[..|v.log|][i] == v'.log[i];
        assert WireOne(v.log[i], sent[i]);
      }
    }
  }

  lemma ServedOnWire<S>(h: Handler<S>, max: nat, v: Service<S>, c: Connection, w: Result<(), FrameError>, data: bytes)
    requires v.end == Open
    requires if !c.canBlock || ParseFrame(c.input, max).Err? then data == []
             else
               var f := ParseFrame(c.input, max).value.frame;
               WireOne(Exchange(f, ReplyTo(h, v.state, f), w.Ok?), data)
    ensures WireStep(v, ServeOne(h, max, v, c, w), data)
  {}

  lemma OneReplyMatches<S>(h: Handler<S>, s: S, log: seq<Exchange>, x: Exchange)
    requires RepliesMatch(h, s, log) && x.reply == ReplyTo(h, Fold(h, s, Requests(log)), x.frame)
    ensures RepliesMatch(h, s, log + [x])
  {
    assert log[..|log|] == log;
    forall i | 0 <= i <= |log| ensures (log + [x])[..i] == log[..i] {}
  }

  lemma OneFrameMatches<S>(h: Handler<S>, max: nat, cs: seq<Connection>, v: Service<S>, w: Result<(), FrameError>)
    requires cs != [] && FramesMatch(max, cs[..|cs| - 1], v.log) && (v.end == Open ==> |v.log| == |cs| - 1)
    ensures FramesMatch(max, cs, ServeOne(h, max, v, cs[|cs| - 1], w).log)
  {
    assert forall i | 0 <= i < |cs| - 1 :: cs[i] == cs[..|cs| - 1][i];
  }

  lemma OneAnswered<S>(h: Handler<S>, max: nat, s: S, cs: seq<Connection>, v: Service<S>, w: Result<(), FrameError>)
    requires cs != [] && Answered(h, max, s, cs[..|cs| - 1], v.log) && (v.end == Open ==> |v.log| == |cs| - 1)
    requires v.state == Fold(h, s, Requests(v.log))
    ensures Answered(h, max, s, cs, ServeOne(h, max, v, cs[|cs| - 1], w).log)
  {
    var c := cs[|cs| - 1];
    OneFrameMatches(h, max, cs, v, w);
    if v.end == Open && c.canBlock && ParseFrame(c.input, max).Ok? {
      var f := ParseFrame(c.input, max).value.frame;
      OneReplyMatches(h, s, v.log, Exchange(f, ReplyTo(h, v.state, f), w.Ok?));
    }
  }

  lemma OneEndsOnlyBy<S>(h: Handler<S>, max: nat, cs: seq<Connection>, v: Service<S>, w: Result<(), FrameError>)
    requires cs != [] && EndsOnlyBy(max, cs[..|cs| - 1], v.log, v.end)
    ensures EndsOnlyBy(max, cs, ServeOne(h, max, v, cs[|cs| - 1], w).log, ServeOne(h, max, v, cs[|cs| - 1], w).end)
  {}

  lemma {:induction false} ServeDiscipline<S>(h: Handler<S>, max: nat, s: S, cs: seq<Connection>,
                                                 ws: seq<Result<(), FrameError>>)
    requires |cs| == |ws|
    ensures var v := Serve(h, max, s, cs, ws); Answered(h, max, s, cs, v.log) && EndsOnlyBy(max, cs, v.log, v.end)
  {
    if cs != [] {
      var front, wfront := cs[..|cs| - 1], ws[..|ws| - 1];
      var v := Serve(h, max, s, front, wfront);
      ServeDiscipline(h, max, s, front, wfront);
      OneEndsOnlyBy(h, max, cs, v, ws[|ws| - 1]);
      ServeIsFold(h, max, s, front, wfront);
      OneAnswered(h, max, s, cs, v, ws[|ws| - 1]);
    }
  }

  // ---- The world ----------------------------------------------------------

  datatype Polled = Ready | Quiet | PollError

  datatype Accepted = Stream(c: Connection) | WouldBlock | AcceptError

  datatype Exit = Idle | Signalled | ByFrame | Failed(error: LoopError)

  /** Which of the operations of run succeed. */
  datatype System = System(setup: bool, claim: bool, bind: bool, cleanup: bool)

  /** The ends of the loop that come from outside: a signal, or a failing poll or accept. */
  predicate FromOutside(exit: Exit) {
    exit == Signalled || exit == Failed(PollFailed) || exit == Failed(AcceptFailed)
  }

  /** A call of poll: when it was made, until when it asked to sleep, and the last accept
      before it. */
  datatype PollCall = PollCall(at: nat, until: nat, since: Option<nat>)

  /** What is known of the listener: after a poll it may be ready, and once an accept would
      block there is nothing more to accept. */
  datatype Listener = Unknown | Acceptable | Exhausted

  function LastOf(times: seq<nat>, start: nat): nat {
    if times == [] then start else times[|times| - 1]
  }

  /** Clock, signals, listener. poll returns late by at most lateness ticks, and the clock
      moves on every poll. The world keeps the times itself: of every accept, of the end of
      every service, and of every poll. */
  class World {
    var now: nat
    var pending: seq<Connection>
    const lateness: nat
    const system: System
    /** What has happened that must end the loop. */
    ghost var outside: Option<Exit>
    ghost var listener: Listener
    ghost var accepts: seq<nat>
    ghost var services: seq<nat>
    ghost var polls: seq<PollCall>

    constructor (now: nat, pending: seq<Connection>, lateness: nat, system: System)
      requires lateness > 0
      ensures this.now == now && this.pending == pending && this.lateness == lateness && this.system == system
      ensures Fresh()
    {
      this.now, this.pending, this.lateness, this.system := now, pending, lateness, system;
      outside, listener, accepts, services, polls := None, Unknown, [], [], [];
    }

    ghost predicate Fresh()
      reads this
    {
      lateness > 0 && outside == None && listener == Unknown && accepts == [] && services == [] && polls == []
    }

    method Poll(timeoutMs: nat) returns (r: Polled)
      requires lateness > 0
      modifies this`now, this`outside, this`listener, this`polls
      ensures old(now) < now <= old(now) + timeoutMs * TICKS_PER_MS + lateness
      ensures polls == old(polls) + [PollCall(old(now), old(now) + timeoutMs * TICKS_PER_MS,
                                              if accepts == [] then None else Some(accepts[|accepts| - 1]))]
      ensures listener == if r == Ready then Acceptable else Unknown
      ensures outside == if r == PollError then Some(Failed(PollFailed)) else old(outside)
    {
      polls := polls + [PollCall(now, now + timeoutMs * TICKS_PER_MS,
                                 if accepts == [] then None else Some(accepts[|accepts| - 1]))];
      var spent: nat :| 0 < spent <= timeoutMs * TICKS_PER_MS + lateness by {
        assert 0 < 1 <= timeoutMs * TICKS_PER_MS + lateness;
      }
      now := now + spent;
      listener := Unknown;
      if * {
        r := Ready;
        listener := Acceptable;
      } else if * {
        r := Quiet;
      } else {
        r := PollError;
        outside := Some(Failed(PollFailed));
      }
    }

    method Accept() returns (r: Accepted)
      requires listener == Acceptable
      modifies this`pending, this`outside, this`listener, this`accepts
      ensures r.Stream? ==> old(pending) == [r.c] + pending && accepts == old(accepts) + [now]
      ensures !r.Stream? ==> pending == old(pending) && accepts == old(accepts)
      ensures listener == if r == WouldBlock then Exhausted else Acceptable
      ensures outside == if r == AcceptError then Some(Failed(AcceptFailed)) else old(outside)
    {
      if * {
        outside := Some(Failed(AcceptFailed));
        return AcceptError;
      } else if * {
        listener := Exhausted;
        return WouldBlock;
      } else if pending == [] {
        listener := Exhausted;
        return WouldBlock;
      }
      r := Stream(pending[0]);
      pending, accepts := pending[1..], accepts + [now];
    }

    method SignalSeen() returns (b: bool)
      modifies this`outside
      ensures outside == if b then Some(Signalled) else old(outside)
    {
      if * {
        b := true;
        outside := Some(Signalled);
      } else {
        b := false;
      }
    }

    /** The handler and the blocking stream of one connection take their time. */
    method Elapse()
      modifies this`now, this`services
      ensures now >= old(now) && services == old(services) + [now]
    {
      var spent: nat :| true;
      now := now + spent;
      services := services + [now];
    }
  }

  // ---- The clock of the loop ----------------------------------------------

  /** A moment of the loop: the clock, the times of all accepts and of all ends of services,
      the daemon's own time of the last activity, and the number of connections to come. */
  datatype Moment = Moment(now: nat, accepts: seq<nat>, services: seq<nat>, last: nat, pending: nat)

  /** The daemon's time of the last activity is that of the last accept, every accepted
      connection has been served, and the clock is past the idle deadline by no more than the
      lateness of a poll unless the last service took it there. */
  predicate OnTime(m: Moment, start: nat, idle: nat, lateness: nat) {
    && m.last == LastOf(m.accepts, start) && start <= m.last <= m.now
    && |m.services| == |m.accepts|
    && m.now <= Max(LastOf(m.services, start), m.last + idle + lateness)
  }

  /** One connection accepted and served. */
  lemma OnTimeAfterService(m: Moment, m': Moment, start: nat, idle: nat, lateness: nat)
    requires OnTime(m, start, idle, lateness)
    requires m'.accepts == m.accepts + [m.now] && m'.services == m.services + [m'.now]
    requires m'.last == m.now <= m'.now
    ensures OnTime(m', start, idle, lateness)
  {}

  // ---- The loop -----------------------------------------------------------

  /** A poll that asked to sleep no further than the idle deadline. */
  lemma OnTimeAfterPoll(m: Moment, m': Moment, start: nat, idle: nat, lateness: nat)
    requires OnTime(m, start, idle, lateness)
    requires m' == m.(now := m'.now) && m.now <= m'.now <= m.last + idle + lateness
    ensures OnTime(m', start, idle, lateness)
  {}

  function Outside(exit: Option<Exit>): Option<Exit> {
    if exit.Some? && FromOutside(exit.value) then exit else None
  }

  /** What the result of a connection means for the loop. */
  function ExitOf(outcome: Result<bool, LoopError>): Option<Exit> {
    match outcome
    case Err(e) => Some(Failed(e))
    case Ok(shutdown) => if shutdown then Some(ByFrame) else None
  }

  /** How a result of serving shows in the service so far. */
  function EndOf(r: Option<Exit>): End {
    match r
    case Some(ByFrame) => ShutdownSeen
    case Some(Failed(e)) => if e == AcceptFailed || e == PollFailed then Open else Broken(e)
    case _ => Open
  }

  lemma EndOfAnswer<S>(h: Handler<S>, max: nat, v: Service<S>, c: Connection, w: Result<(), FrameError>)
    requires v.end == Open && c.canBlock && ParseFrame(c.input, max).Ok?
    ensures var shutdown := ParseFrame(c.input, max).value.frame.kind == Shutdown;
      ServeOne(h, max, v, c, w).end == EndOf(ExitOf(AnswerResult(w, shutdown)))
  {}

  /** What an answered frame means for process_connection: the write may have failed. */
  function AnswerResult(w: Result<(), FrameError>, shutdown: bool): Result<bool, LoopError> {
    if w.Err? then Err(Unwritable(w.error)) else Ok(shutdown)
  }

  class Daemon<!S> {
    const handler: Handler<S>
    const maxPayload: nat
    const idleTimeout: nat
    const pollInterval: nat
    var state: S
    var lastActivity: nat
    /** What was served, with the results of writing and the bytes that went out. */
    ghost var served: seq<Connection>
    ghost var writes: seq<Result<(), FrameError>>
    ghost var sent: seq<bytes>
    /** The states on_stop was called with. */
    ghost var stops: seq<S>

    constructor (state: S, handler: Handler<S>, maxPayload: nat, idleTimeout: nat, pollInterval: nat)
      ensures this.state == state && this.handler == handler && this.maxPayload == maxPayload
      ensures this.idleTimeout == idleTimeout && this.pollInterval == pollInterval
      ensures served == [] && writes == [] && sent == [] && stops == []
    {
      this.state, this.handler, this.maxPayload := state, handler, maxPayload;
      this.idleTimeout, this.pollInterval := idleTimeout, pollInterval;
      lastActivity := 0;
      served, writes, sent, stops := [], [], [], [];
    }

    ghost predicate Fresh()
      reads this`served, this`writes, this`sent
    {
      served == [] && writes == [] && sent == []
    }

    /** The service so far, from the state s the loop began with. */
    ghost function SoFar(s: S): Service<S>
      reads this`served, this`writes
      requires |served| == |writes|
    {
      Serve(handler, maxPayload, s, served, writes)
    }

    /** The bytes sent so far are the answers of the service so far. */
    ghost predicate Recorded(s: S)
      reads this`served, this`writes, this`sent
    {
      && |served| == |writes| == |sent|
      && OnWire(SoFar(s).log, sent)
      && (SoFar(s).end == Open ==> |SoFar(s).log| == |served|)
    }

    ghost predicate InStep(s: S)
      reads this`served, this`writes, this`sent, this`state
    {
      Recorded(s) && state == SoFar(s).state
    }

    /** The dispatch on the kind of a frame. */
    method Dispatch(f: Frame) returns (reply: Frame)
      modifies this`state
      ensures reply == ReplyTo(handler, old(state), f) && state == StateAfter(handler, old(state), f)
    {
      match f.kind {
        case Ping => reply := Frame(Pong, 0, []);
        case Shutdown => reply := Frame(ShutdownAck, 0, []);
        case Request =>
          var answer := handler(state, f.payload);
          state := answer.0;
          match answer.1 {
            case Ok(response) => reply := Frame(Response, 0, response);
            case Err(message) => reply := Frame(Error, 0, message);
          }
        case other => reply := Frame(Error, 0, Ascii("unexpected frame kind: " + DebugName(other)));
      }
    }

    /** One more connection served, with the result of writing its answer and the bytes that
        went out. */
    ghost method Record(c: Connection, write: Result<(), FrameError>, data: bytes, s: S)
      requires Recorded(s) && SoFar(s).end == Open
      requires WireStep(SoFar(s), ServeOne(handler, maxPayload, SoFar(s), c, write), data)
      modifies this`served, this`writes, this`sent
      ensures served == old(served) + [c] && |served| == |writes|
      ensures SoFar(s) == ServeOne(handler, maxPayload, old(SoFar(s)), c, write)
      ensures Recorded(s)
    {
      WireStepKeeps(SoFar(s), ServeOne(handler, maxPayload, SoFar(s), c, write), sent, data);
      served, writes, sent := served + [c], writes + [write], sent + [data];
      assert served[..|served| - 1] == old(served) && writes[..|writes| - 1] == old(writes);
    }

    /** One connection: read a frame, dispatch on its kind, write one answer. */
    method ProcessConnection(c: Connection, ghost s: S) returns (r: Result<bool, LoopError>)
      requires InStep(s) && SoFar(s).end == Open && c.canBlock
      modifies this`state, this`served, this`writes, this`sent
      ensures served == old(served) + [c] && InStep(s)
      ensures SoFar(s).end == EndOf(ExitOf(r)) && (r.Err? ==> r.error.Unreadable? || r.error.Unwritable?)
    {
      var reader := new Reader(c.input, c.readScript);
      assert reader.Left() == c.input;
      var frame := ReadFrame(reader, maxPayload);
      if frame.Ok? { r := AnswerFrame(c, frame.value, s); } else { r := GiveUp(c, frame.error, s); }
    }

    /** No frame could be read: nothing is written and the loop will end. */
    method GiveUp(c: Connection, e: FrameError, ghost s: S) returns (r: Result<bool, LoopError>)
      requires InStep(s) && SoFar(s).end == Open && c.canBlock && ParseFrame(c.input, maxPayload) == Err(e)
      modifies this`served, this`writes, this`sent
      ensures served == old(served) + [c] && InStep(s)
      ensures SoFar(s).end == EndOf(ExitOf(r)) && r == Err(Unreadable(e))
    {
      ServedOnWire(handler, maxPayload, SoFar(s), c, Ok(()), []);
      Record(c, Ok(()), [], s);
      r := Err(Unreadable(e));
    }

    /** The dispatch and the writing of the answer. */
    method AnswerFrame(c: Connection, f: Frame, ghost s: S) returns (r: Result<bool, LoopError>)
      requires InStep(s) && SoFar(s).end == Open && c.canBlock
      requires ParseFrame(c.input, maxPayload).Ok? && ParseFrame(c.input, maxPayload).value.frame == f
      modifies this`state, this`served, this`writes, this`sent
      ensures served == old(served) + [c] && InStep(s)
      ensures SoFar(s).end == EndOf(ExitOf(r)) && (r.Err? ==> r.error.Unwritable?)
    {
      ghost var v := SoFar(s);
      var writer := new Writer(c.writeScript);
      var reply := Dispatch(f);
      var written := WriteFrame(writer, reply);
      ServedOnWire(handler, maxPayload, v, c, written, writer.data);
      EndOfAnswer(handler, maxPayload, v, c, written);
      Record(c, written, writer.data, s);
      r := AnswerResult(written, f.kind == Shutdown);
    }

    /** A connection that cannot be switched to blocking mode: nothing is read or written. */
    method RefuseStream(c: Connection, ghost s: S) returns (r: Option<Exit>)
      requires InStep(s) && SoFar(s).end == Open && !c.canBlock
      modifies this`served, this`writes, this`sent
      ensures served == old(served) + [c] && InStep(s)
      ensures SoFar(s).end == EndOf(r) && r == Some(Failed(BlockingFailed))
    {
      ServedOnWire(handler, maxPayload, SoFar(s), c, Ok(()), []);
      Record(c, Ok(()), [], s);
      r := Some(Failed(BlockingFailed));
    }

    /** One accepted stream. */
    method ServeStream(world: World, c: Connection, ghost s: S) returns (r: Option<Exit>)
      requires InStep(s) && SoFar(s).end == Open
      modifies this`state, this`lastActivity, this`served, this`writes, this`sent, world`now, world`services
      ensures served == old(served) + [c] && InStep(s)
      ensures SoFar(s).end == EndOf(r) && (r.Some? ==> r.value == ByFrame || r.value.Failed?)
      ensures Outside(r) == None && (r == Some(Failed(BlockingFailed)) <==> !c.canBlock)
      ensures c.canBlock ==>
                lastActivity == old(world.now) <= world.now && world.services == old(world.services) + [world.now]
      ensures !c.canBlock ==> world.services == old(world.services)
    {
      if c.canBlock { r := ServeBlocking(world, c, s); } else { r := RefuseStream(c, s); }
    }

    /** A stream in blocking mode: it counts as activity, and then its frame is processed. */
    method ServeBlocking(world: World, c: Connection, ghost s: S) returns (r: Option<Exit>)
      requires InStep(s) && SoFar(s).end == Open && c.canBlock
      modifies this`state, this`lastActivity, this`served, this`writes, this`sent, world`now, world`services
      ensures served == old(served) + [c] && InStep(s)
      ensures SoFar(s).end == EndOf(r) && (r.Some? ==> r.value == ByFrame || r.value.Failed?)
      ensures Outside(r) == None && r != Some(Failed(BlockingFailed))
      ensures lastActivity == old(world.now) <= world.now && world.services == old(world.services) + [world.now]
    {
      lastActivity := world.now;
      world.Elapse();
      var outcome := ProcessConnection(c, s);
      r := ExitOf(outcome);
    }

    ghost function At(world: World): Moment
      reads this`lastActivity, world`now, world`accepts, world`services, world`pending
    {
      Moment(world.now, world.accepts, world.services, lastActivity, |world.pending|)
    }

    /** The inner loop: accepts and serves until the listener would block. None means that it
        does and that the outer loop goes on. */
    method Drain(world: World, ghost s: S, ghost all: seq<Connection>, ghost start: nat) returns (r: Option<Exit>)
      requires served + world.pending == all && InStep(s) && SoFar(s).end == Open
      requires world.outside == None && world.listener == Acceptable
      requires OnTime(At(world), start, idleTimeout, world.lateness) && |world.accepts| == |served|
      modifies this`state, this`lastActivity, this`served, this`writes, this`sent
      modifies world`now, world`pending, world`outside, world`listener, world`accepts, world`services
      ensures served + world.pending == all && InStep(s) && |world.accepts| == |served|
      ensures SoFar(s).end == EndOf(r) && (r.Some? ==> r.value == ByFrame || r.value.Failed?)
      ensures world.outside == Outside(r)
      ensures r != Some(Failed(BlockingFailed)) ==> OnTime(At(world), start, idleTimeout, world.lateness)
      ensures r.None? ==> world.listener == Exhausted && |world.pending| <= |old(world.pending)|
      ensures |world.pending| == |old(world.pending)| ==> At(world) == old(At(world))
    {
      while true
        invariant served + world.pending == all && InStep(s) && SoFar(s).end == Open
        invariant world.outside == None && world.listener == Acceptable
        invariant OnTime(At(world), start, idleTimeout, world.lateness) && |world.accepts| == |served|
        invariant |world.pending| <= |old(world.pending)|
        invariant |world.pending| == |old(world.pending)| ==> At(world) == old(At(world))
        decreases |world.pending|
      {
        var blocked;
        blocked, r := AcceptOne(world, s, all, start);
        if blocked || r.Some? { return; }
      }
    }

    /** One accept, and the service of the stream if there is one. */
    method AcceptOne(world: World, ghost s: S, ghost all: seq<Connection>, ghost start: nat)
      returns (blocked: bool, r: Option<Exit>)
      requires served + world.pending == all && InStep(s) && SoFar(s).end == Open
      requires world.outside == None && world.listener == Acceptable
      requires OnTime(At(world), start, idleTimeout, world.lateness) && |world.accepts| == |served|
      modifies this`state, this`lastActivity, this`served, this`writes, this`sent
      modifies world`now, world`pending, world`outside, world`listener, world`accepts, world`services
      ensures served + world.pending == all && InStep(s) && |world.accepts| == |served|
      ensures SoFar(s).end == EndOf(r) && (r.Some? ==> r.value == ByFrame || r.value.Failed?)
      ensures world.outside == Outside(r)
      ensures world.listener == if blocked then Exhausted else Acceptable
      ensures r != Some(Failed(BlockingFailed)) ==> OnTime(At(world), start, idleTimeout, world.lateness)
      ensures blocked ==> r.None?
      ensures if blocked || r == Some(Failed(AcceptFailed)) then At(world) == old(At(world))
              else |world.pending| < |old(world.pending)|
    {
      ghost var m := At(world);
      var accepted := world.Accept();
      if accepted == WouldBlock { return true, None; }
      if accepted == AcceptError { return false, Some(Failed(AcceptFailed)); }
      Regroup(served, [accepted.c], world.pending);
      r := ServeStream(world, accepted.c, s);
      if accepted.c.canBlock { OnTimeAfterService(m, At(world), start, idleTimeout, world.lateness); }
      blocked := false;
    }

    /** No poll asked to sleep past the idle deadline of its time, or longer than the interval. */
    ghost predicate PollsInTime(world: World, start: nat)
      reads world`polls
    {
      forall i | 0 <= i < |world.polls| ::
        world.polls[i].until <= (if world.polls[i].since.Some? then world.polls[i].since.value else start) + idleTimeout
        && world.polls[i].until <= world.polls[i].at + pollInterval
    }

    /** poll_listener: sleeps as many whole milliseconds as the timeout holds, or as an i32 can say. */
    method PollListener(world: World, timeout: nat) returns (r: Polled)
      requires world.lateness > 0
      modifies world`now, world`outside, world`listener, world`polls
      ensures |world.polls| == |old(world.polls)| + 1 && world.polls[..|old(world.polls)|] == old(world.polls)
      ensures var p := world.polls[|old(world.polls)|];
        && p.at == old(world.now)
        && p.since == (if world.accepts == [] then None else Some(world.accepts[|world.accepts| - 1]))
        && (p.until - p.at) % TICKS_PER_MS == 0
        && (p.until <= p.at + timeout < p.until + TICKS_PER_MS
            || (p.until == p.at + I32_MAX * TICKS_PER_MS && p.until < p.at + timeout))
      ensures old(world.now) < world.now <= old(world.now) + timeout + world.lateness
      ensures world.listener == if r == Ready then Acceptable else Unknown
      ensures world.outside == if r == PollError then Some(Failed(PollFailed)) else old(world.outside)
    {
      var ms := timeout / TICKS_PER_MS;
      if ms > I32_MAX { ms := I32_MAX; }
      r := world.Poll(ms);
    }

    /** A poll of the loop: whatever it returns, the clock and the record of polls stay in time. */
    method PollOnTime(world: World, ghost start: nat, timeout: nat) returns (r: Polled)
      requires world.lateness > 0
      requires PollsInTime(world, start) && OnTime(At(world), start, idleTimeout, world.lateness)
      requires world.now + timeout <= lastActivity + idleTimeout && timeout <= pollInterval
      modifies world`now, world`outside, world`listener, world`polls
      ensures PollsInTime(world, start) && OnTime(At(world), start, idleTimeout, world.lateness)
      ensures old(world.now) < world.now
      ensures world.listener == if r == Ready then Acceptable else Unknown
      ensures world.outside == if r == PollError then Some(Failed(PollFailed)) else old(world.outside)
    {
      ghost var m, polls := At(world), world.polls;
      r := PollListener(world, timeout);
      OnTimeAfterPoll(m, At(world), start, idleTimeout, world.lateness);
      assert forall i | 0 <= i < |polls| :: world.polls[i] == polls[i];
    }

    /** One round of the outer loop after the signal check: the idle test, a poll and a drain. */
    method LoopOnce(world: World, ghost s: S, ghost start: nat) returns (exit: Option<Exit>)
      requires InStep(s) && SoFar(s).end == Open && world.lateness > 0 && world.outside == None
      requires PollsInTime(world, start) && OnTime(At(world), start, idleTimeout, world.lateness)
      requires |world.accepts| == |served|
      modifies this`state, this`lastActivity, this`served, this`writes, this`sent
      modifies world`now, world`pending, world`outside, world`listener, world`accepts, world`services, world`polls
      ensures InStep(s) && served + world.pending == old(served + world.pending) && |world.accepts| == |served|
      ensures SoFar(s).end == EndOf(exit) && exit != Some(Signalled) && world.outside == Outside(exit)
      ensures PollsInTime(world, start) && (exit.None? ==> world.listener != Acceptable)
      ensures exit != Some(Failed(BlockingFailed)) ==> OnTime(At(world), start, idleTimeout, world.lateness)
      ensures exit == Some(Idle) ==> world.now >= lastActivity + idleTimeout && world.listener == old(world.listener)
      ensures exit.None? && |world.pending| >= |old(world.pending)| ==>
                (|world.pending| == |old(world.pending)| && lastActivity == old(lastActivity)
                 && old(world.now) < world.now && old(world.now) < lastActivity + idleTimeout)
    {
      var elapsed := world.now - lastActivity;
      var idleRemaining := if elapsed < idleTimeout then idleTimeout - elapsed else 0;
      if idleRemaining == 0 { return Some(Idle); }
      var timeout := if idleRemaining < pollInterval then idleRemaining else pollInterval;
      exit := PollAndDrain(world, s, start, timeout);
    }

    method PollAndDrain(world: World, ghost s: S, ghost start: nat, timeout: nat) returns (exit: Option<Exit>)
      requires InStep(s) && SoFar(s).end == Open && world.lateness > 0 && world.outside == None
      requires PollsInTime(world, start) && OnTime(At(world), start, idleTimeout, world.lateness)
      requires |world.accepts| == |served|
      requires world.now + timeout <= lastActivity + idleTimeout && timeout <= pollInterval
      modifies this`state, this`lastActivity, this`served, this`writes, this`sent
      modifies world`now, world`pending, world`outside, world`listener, world`accepts, world`services, world`polls
      ensures InStep(s) && served + world.pending == old(served + world.pending) && |world.accepts| == |served|
      ensures SoFar(s).end == EndOf(exit) && exit != Some(Signalled) && exit != Some(Idle)
      ensures world.outside == Outside(exit)
      ensures PollsInTime(world, start) && (exit.None? ==> world.listener != Acceptable)
      ensures exit != Some(Failed(BlockingFailed)) ==> OnTime(At(world), start, idleTimeout, world.lateness)
      ensures exit.None? && |world.pending| >= |old(world.pending)| ==>
                (|world.pending| == |old(world.pending)| && lastActivity == old(lastActivity)
                 && old(world.now) < world.now)
    {
      var ready := PollOnTime(world, start, timeout);
      if ready == PollError { return Some(Failed(PollFailed)); }
      if ready == Quiet { return None; }
      exit := Drain(world, s, served + world.pending, start);
    }

    /** What the loop amounts to: a fold of the handler over the requests, one answer for each
        frame, sent on its connection, and an end that is nobody's failing handler. */
    ghost predicate LoopMeaning(s: S, exit: Exit)
      reads this`state, this`served, this`writes, this`sent
      requires |served| == |writes|
    {
      && state == Fold(handler, s, Requests(SoFar(s).log))
      && Answered(handler, maxPayload, s, served, SoFar(s).log)
      && EndsOnlyBy(maxPayload, served, SoFar(s).log, EndOf(Some(exit)))
      && OnWire(SoFar(s).log, sent)
    }

    /** The connections accepted were served in order and that is how the loop ended. */
    ghost predicate Served(s: S, exit: Exit)
      reads this`state, this`served, this`writes, this`sent
    {
      InStep(s) && SoFar(s).end == EndOf(Some(exit))
    }

    lemma ServedMeans(s: S, exit: Exit)
      requires Served(s, exit)
      ensures LoopMeaning(s, exit)
    {
      ServeIsFold(handler, maxPayload, s, served, writes);
      ServeDiscipline(handler, maxPayload, s, served, writes);
    }

    /** run_event_loop. The state is that of serving the accepted connections in order. An
        idle exit means that nothing the listener had ready was left, that there was no accept
        in the last idleTimeout, and it comes no later than one poll lateness after the deadline
        unless the last service took until then. */
    method RunEventLoop(world: World) returns (exit: Exit)
      requires Fresh() && world.Fresh()
      modifies this`state, this`lastActivity, this`served, this`writes, this`sent
      modifies world`now, world`pending, world`outside, world`listener, world`accepts, world`services, world`polls
      ensures world.outside == Outside(Some(exit))
      ensures Served(old(state), exit)
      ensures served + world.pending == old(world.pending) && |world.accepts| == |served|
      ensures LoopMeaning(old(state), exit)
      ensures PollsInTime(world, old(world.now))
      ensures exit == Idle ==>
                var start := old(world.now); var deadline := LastOf(world.accepts, start) + idleTimeout;
                && |world.services| == |served| && world.listener != Acceptable
                && deadline <= world.now <= Max(LastOf(world.services, start), deadline + world.lateness)
    {
      exit := Rounds(world);
      ServedMeans(old(state), exit);
    }

    /** The outer loop. */
    method Rounds(world: World) returns (exit: Exit)
      requires Fresh() && world.Fresh()
      modifies this`state, this`lastActivity, this`served, this`writes, this`sent
      modifies world`now, world`pending, world`outside, world`listener, world`accepts, world`services, world`polls
      ensures world.outside == Outside(Some(exit))
      ensures Served(old(state), exit)
      ensures served + world.pending == old(world.pending) && |world.accepts| == |served|
      ensures PollsInTime(world, old(world.now))
      ensures exit != Failed(BlockingFailed) ==> OnTime(At(world), old(world.now), idleTimeout, world.lateness)
      ensures exit == Idle ==> world.now >= lastActivity + idleTimeout && world.listener != Acceptable
    {
      lastActivity := world.now;
      ghost var start, s := world.now, state;
      while true
        invariant InStep(s) && SoFar(s).end == Open && served + world.pending == old(world.pending)
        invariant world.outside == None && |world.accepts| == |served| && world.listener != Acceptable
        invariant PollsInTime(world, start) && OnTime(At(world), start, idleTimeout, world.lateness)
        decreases |world.pending|, Max(lastActivity + idleTimeout, world.now) - world.now
      {
        var signal := world.SignalSeen();
        if signal {
          exit := Signalled;
          break;
        }
        var r := LoopOnce(world, s, start);
        if r.Some? {
          exit := r.value;
          break;
        }
      }
    }

    // ---- run --------------------------------------------------------------

    /** on_stop, with the state as it then is. */
    method CallOnStop(onStop: S -> Result<(), bytes>) returns (r: Result<(), bytes>)
      modifies this`stops
      ensures r == onStop(state) && stops == old(stops) + [state]
    {
      r := onStop(state);
      stops := stops + [state];
    }

    /** run. onStart and onStop are the callbacks, and world.system says which of the operations
        of the system succeed. on_stop is called exactly if on_start succeeded, once, and gets
        the state that the loop made of the one on_start returned, with or without a pid file.
        The first error in the order loop, cleanup, on_stop is reported with what it carries; an
        error of on_stop hides a bind error. */
    method Run(world: World, hasPidFile: bool, onStart: Result<S, bytes>, onStop: S -> Result<(), bytes>)
      returns (r: Result<(), RunError>, ghost exit: Exit)
      requires Fresh() && stops == [] && world.Fresh()
      modifies this`state, this`lastActivity, this`served, this`writes, this`sent, this`stops
      modifies world`now, world`pending, world`outside, world`listener, world`accepts, world`services, world`polls
      ensures if world.system.setup && (hasPidFile ==> world.system.claim) && onStart.Ok? then
                && stops == [state]
                && (if world.system.bind then Served(onStart.value, exit) else state == onStart.value)
                && r == Reported(world.system, exit, onStop(state))
              else
                && stops == []
                && r == Err(if !world.system.setup then SignalSetup
                            else if hasPidFile && !world.system.claim then ClaimFailed
                            else StartFailed(onStart.error))
    {
      exit := Idle;
      if !world.system.setup { return Err(SignalSetup), exit; }
      if hasPidFile && !world.system.claim { return Err(ClaimFailed), exit; }
      if onStart.Err? { return Err(StartFailed(onStart.error)), exit; }
      state := onStart.value;
      if !world.system.bind {
        var stop := CallOnStop(onStop);
        if stop.Err? { return Err(StopFailed(stop.error)), exit; }
        return Err(BindFailed), exit;
      }
      r, exit := ServeAndStop(world, onStop);
    }

    /** After a successful bind. */
    method ServeAndStop(world: World, onStop: S -> Result<(), bytes>)
      returns (r: Result<(), RunError>, ghost exit: Exit)
      requires Fresh() && world.Fresh() && world.system.bind
      modifies this`state, this`lastActivity, this`served, this`writes, this`sent, this`stops
      modifies world`now, world`pending, world`outside, world`listener, world`accepts, world`services, world`polls
      ensures stops == old(stops) + [state] && Served(old(state), exit)
      ensures r == Reported(world.system, exit, onStop(state))
    {
      var ended := RunEventLoop(world);
      exit := ended;
      var cleaned := world.system.cleanup;
      var stop := CallOnStop(onStop);
      if ended.Failed? { return Err(LoopFailed(ended.error)), exit; }
      if !cleaned { return Err(CleanupFailed), exit; }
      if stop.Err? { return Err(StopFailed(stop.error)), exit; }
      return Ok(()), exit;
    }
  }

  // ---- What run reports ---------------------------------------------------

  datatype RunError =
    | SignalSetup
    | ClaimFailed
    | StartFailed(message: bytes)
    | BindFailed
    | LoopFailed(error: LoopError)
    | CleanupFailed
    | StopFailed(stopMessage: bytes)

  /** The first of the errors in the order they are looked at. */
  function Reported(system: System, exit: Exit, stop: Result<(), bytes>): Result<(), RunError> {
    if system.bind && exit.Failed? then Err(LoopFailed(exit.error))
    else if system.bind && !system.cleanup then Err(CleanupFailed)
    else if stop.Err? then Err(StopFailed(stop.error))
    else if !system.bind then Err(BindFailed)
    else Ok(())
  }

  /** Which error is reported when, one by one. */
  lemma ReportedMeans(system: System, exit: Exit, stop: Result<(), bytes>)
    ensures var r := Reported(system, exit, stop);
      && (r.Ok? <==> system.bind && !exit.Failed? && system.cleanup && stop.Ok?)
      && (forall e :: r == Err(LoopFailed(e)) <==> system.bind && exit == Failed(e))
      && (r == Err(CleanupFailed) <==> system.bind && !exit.Failed? && !system.cleanup)
      && (forall m :: r == Err(StopFailed(m)) <==>
            stop == Err(m) && (!system.bind || (!exit.Failed? && system.cleanup)))
      && (r == Err(BindFailed) <==> !system.bind && stop.Ok?)
  {}
}
