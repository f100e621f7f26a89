/** Both ends of a connection: what a client makes of the bytes that the daemon's loop sends in
    answer to the bytes that a client sent. */
module Conversation {
  import opened Wrappers
  import opened Frames
  import opened EventLoop
  import opened ClientCode
  import opened AtMostOnce

  // ---- The client's side --------------------------------------------------

  /** try_ping_once, from the answer on. */
  function PingResult(data: bytes, max: nat): Result<(), ClientError> {
    match ParseFrame(data, max)
    case Err(_) => Err(BadFrame)
    case Ok(p) => if p.frame.kind == Pong then Ok(()) else Err(UnexpectedFrameKind)
  }

  /** shutdown(), from the answer to the wait. */
  function ShutdownResult(data: bytes, max: nat): Result<(), ClientError> {
    match ParseFrame(data, max)
    case Err(_) => Err(BadFrame)
    case Ok(p) =>
      if p.frame.kind == ShutdownAck then Ok(())
      else if p.frame.kind == FrameKind.Error then Err(DaemonReturnedError(p.frame.payload))
      else Err(UnexpectedFrameKind)
  }

  /** send_request_once, from the answer on. */
  function RequestResult(data: bytes, max: nat): Result<bytes, ClientError> {
    match ParseFrame(data, max)
    case Err(_) => Err(BadFrame)
    case Ok(p) => ResultOf(p.frame)
  }

  // ---- What a frame gets --------------------------------------------------

  /** The handler's own result, as a client sees it. */
  function Passed(r: Result<bytes, bytes>): Result<bytes, ClientError> {
    match r
    case Ok(response) => Ok(response)
    case Err(message) => Err(DaemonReturnedError(message))
  }

  /** A ping finds the daemon ready, a shutdown is acknowledged, a request gets the handler's
      result in the state st, and any other frame is an error to whoever sent it. */
  ghost predicate Understood<S>(h: Handler<S>, st: S, kind: FrameKind, payload: bytes, data: bytes, max: nat) {
    match kind
    case Ping => PingResult(data, max) == Ok(())
    case Shutdown => ShutdownResult(data, max) == Ok(())
    case Request => RequestResult(data, max) == Passed(h(st, payload).1)
    case _ => RequestResult(data, max).Err? && RequestResult(data, max).error.DaemonReturnedError?
  }

  /** The client's limit leaves room for the answer: for a short message, and for what the
      handler returns. */
  predicate Room<S>(h: Handler<S>, st: S, kind: FrameKind, payload: bytes, max: nat) {
    && 64 <= max
    && (kind == FrameKind.Request ==>
          match h(st, payload).1
          case Ok(response) => |response| <= max
          case Err(message) => |message| <= max)
  }

  lemma ReplyFits<S>(h: Handler<S>, st: S, f: Frame, max: nat)
    requires Room(h, st, f.kind, f.payload, max)
    ensures |ReplyTo(h, st, f).payload| <= max
  {
    assert forall kind :: |DebugName(kind)| <= 11;
  }

  /** An answer that was sent whole reads back as itself. */
  lemma AnswerReads(x: Exchange, data: bytes, max: nat)
    requires WireOne(x, data) && x.delivered && |x.reply.payload| <= max
    ensures ParseFrame(data, max).Ok? && ParseFrame(data, max).value.frame == x.reply
  {
    FrameRoundTrip(x.reply, [], max);
    assert data + [] == data;
  }

  lemma AnswerUnderstood<S>(h: Handler<S>, st: S, x: Exchange, data: bytes, max: nat)
    requires WireOne(x, data) && x.delivered && x.reply == ReplyTo(h, st, x.frame)
    requires Room(h, st, x.frame.kind, x.frame.payload, max)
    ensures Understood(h, st, x.frame.kind, x.frame.payload, data, max)
  {
    ReplyFits(h, st, x.frame, max);
    AnswerReads(x, data, max);
  }

  /** For every connection that carries a frame and whose answer was delivered, in whatever run
      of the loop: the bytes sent back are understood, the handler having seen all requests of
      earlier connections. */
  lemma LoopUnderstood<S>(d: Daemon<S>, s: S, exit: Exit, i: nat, f: Frame, rest: bytes, max: nat)
    requires |d.served| == |d.writes| && d.LoopMeaning(s, exit)
    requires i < |d.SoFar(s).log| && d.SoFar(s).log[i].delivered
    requires i < |d.served| && d.served[i].input == EncodeFrameOf(f) + rest && |f.payload| <= d.maxPayload
    requires Sendable(f)
    requires Room(d.handler, Fold(d.handler, s, Requests(d.SoFar(s).log[..i])), f.kind, f.payload, max)
    ensures i < |d.sent|
    ensures Understood(d.handler, Fold(d.handler, s, Requests(d.SoFar(s).log[..i])), f.kind, f.payload, d.sent[i], max)
  {
    var log := d.SoFar(s).log;
    FrameRoundTrip(f, rest, d.maxPayload);
    assert log[i].frame == f;
    assert WireOne(log[i], d.sent[i]);
    AnswerUnderstood(d.handler, Fold(d.handler, s, Requests(log[..i])), log[i], d.sent[i], max);
  }

  function EncodeFrameOf(f: Frame): bytes {
    if Sendable(f) then EncodeFrame(f) else []
  }
}
