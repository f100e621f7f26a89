/** Clients inside request(), daemons serving them and the connections between them, as one
    state machine: how often the handler runs for one call, and what its result means. */
module AtMostOnce {
  import opened Wrappers
  import opened Frames
  import opened EventLoop
  import opened ClientCode

  /** One connection: the call that opened it, the daemon it reached, whether the request
      frame has arrived whole, and the answer once the handler has run. */
  datatype Link = Link(call: Id, daemon: Id, arrived: bool, answer: Option<Frame>, sent: bool)

  datatype CallPhase =
    | Connecting(retry: bool)
    | Writing(retry: bool, link: Id)
    | Reading(retry: bool, link: Id)
    | Recovering
    | Returned(result: Result<bytes, ClientError>)

  /** sends counts the calls of send_request_once, each of which begins with one connect. */
  datatype Call = Call(payload: bytes, autoStart: bool, phase: CallPhase, sends: nat)

  /** A run of the handler: for which call and over which connection, and its result. */
  datatype HandlerRun = HandlerRun(call: Id, link: Id, result: Result<bytes, bytes>)

  /** daemons holds the application state of every running daemon. */
  datatype State<S> = State(
    daemons: map<Id, S>,
    calls: map<Id, Call>,
    links: map<Id, Link>,
    runs: seq<HandlerRun>)

  datatype Step<S> =
    | Boot(daemon: Id, initial: S)
    | Crash(daemon: Id)
    | Begin(call: Id, payload: bytes, autoStart: bool)
    | Connect(call: Id, link: Id, daemon: Id)
    | ConnectFails(call: Id, kind: IoKind)
    | Write(call: Id)
    | WriteFails(call: Id, kind: IoKind, arrivedAnyway: bool)
    | Read(call: Id)
    | ReadFails(call: Id, kind: IoKind)
    | Recover(call: Id, ready: bool, error: ClientError)
    | Handle(link: Id)
    | Reply(link: Id)

  predicate Enabled<S>(s: State<S>, step: Step<S>) {
    match step
    case Boot(d, _) => d !in s.daemons
    case Crash(d) => d in s.daemons
    case Begin(c, _, _) => c !in s.calls
    case Connect(c, k, d) => c in s.calls && s.calls[c].phase.Connecting? && k !in s.links && d in s.daemons
    case ConnectFails(c, _) => c in s.calls && s.calls[c].phase.Connecting?
    case Write(c) => c in s.calls && s.calls[c].phase.Writing? && s.calls[c].phase.link in s.links
    case WriteFails(c, _, _) => c in s.calls && s.calls[c].phase.Writing? && s.calls[c].phase.link in s.links
    case Read(c) =>
      c in s.calls && s.calls[c].phase.Reading? && s.calls[c].phase.link in s.links
      && s.links[s.calls[c].phase.link].sent && s.links[s.calls[c].phase.link].answer.Some?
    case ReadFails(c, _) => c in s.calls && s.calls[c].phase.Reading?
    case Recover(c, _, _) => c in s.calls && s.calls[c].phase.Recovering?
    case Handle(k) =>
      k in s.links && s.links[k].arrived && s.links[k].answer.None? && s.links[k].daemon in s.daemons
      && s.links[k].call in s.calls
    case Reply(k) => k in s.links && s.links[k].answer.Some? && s.links[k].daemon in s.daemons
  }

  function Goto<S>(s: State<S>, c: Id, phase: CallPhase): State<S>
    requires c in s.calls
  {
    s.(calls := s.calls[c := s.calls[c].(phase := phase)])
  }

  /** The connect at the start of send_request_once, and where it leads. */
  function Send<S>(s: State<S>, c: Id, phase: CallPhase): State<S>
    requires c in s.calls
  {
    s.(calls := s.calls[c := s.calls[c].(phase := phase, sends := s.calls[c].sends + 1)])
  }

  /** What request does with an error of send_request_once. */
  function AfterError(call: Call, retry: bool, e: ClientError): CallPhase {
    if !retry && call.autoStart && CanAttemptRecovery(e) then Recovering else Returned(Err(e))
  }

  /** What send_request_once makes of the frame it read. */
  function ResultOf(f: Frame): Result<bytes, ClientError> {
    if f.kind == Response then Ok(f.payload)
    else if f.kind == Error then Err(DaemonReturnedError(f.payload))
    else Err(UnexpectedFrameKind)
  }

  function Apply<S>(h: Handler<S>, s: State<S>, step: Step<S>): State<S>
    requires Enabled(s, step)
  {
    match step
    case Boot(d, initial) => s.(daemons := s.daemons[d := initial])
    case Crash(d) => s.(daemons := s.daemons - {d})
    case Begin(c, payload, autoStart) => s.(calls := s.calls[c := Call(payload, autoStart, Connecting(false), 0)])
    case Connect(c, k, d) =>
      Send(s, c, Writing(s.calls[c].phase.retry, k)).(links := s.links[k := Link(c, d, false, None, false)])
    case ConnectFails(c, kind) => Send(s, c, AfterError(s.calls[c], s.calls[c].phase.retry, Io(kind)))
    case Write(c) =>
      var k := s.calls[c].phase.link;
      Goto(s, c, Reading(s.calls[c].phase.retry, k)).(links := s.links[k := s.links[k].(arrived := true)])
    case WriteFails(c, kind, arrivedAnyway) =>
      var k := s.calls[c].phase.link;
      Goto(s, c, AfterError(s.calls[c], s.calls[c].phase.retry, Io(kind)))
        .(links := s.links[k := s.links[k].(arrived := arrivedAnyway)])
    case Read(c) =>
      var r := ResultOf(s.links[s.calls[c].phase.link].answer.value);
      Goto(s, c, if r.Ok? then Returned(r) else AfterError(s.calls[c], s.calls[c].phase.retry, r.error))
    case ReadFails(c, kind) => Goto(s, c, AfterError(s.calls[c], s.calls[c].phase.retry, Io(kind)))
    case Recover(c, ready, error) => Goto(s, c, if ready then Connecting(true) else Returned(Err(error)))
    case Handle(k) =>
      var link := s.links[k];
      var f := Frame(FrameKind.Request, 0, s.calls[link.call].payload);
      var state := s.daemons[link.daemon];
      s.(daemons := s.daemons[link.daemon := StateAfter(h, state, f)],
         links := s.links[k := link.(answer := Some(ReplyTo(h, state, f)))],
         runs := s.runs + [HandlerRun(link.call, k, h(state, f.payload).1)])
    case Reply(k) => s.(links := s.links[k := s.links[k].(sent := true)])
  }

  /** The recoverable error kinds arise from connect only. */
  predicate Tame<S>(step: Step<S>) {
    (step.WriteFails? || step.ReadFails?) ==> !Recoverable(step.kind)
  }

  function Empty<S>(): State<S> { State(map[], map[], map[], []) }

  ghost predicate Run<S>(h: Handler<S>, s: State<S>, steps: seq<Step<S>>, t: State<S>)
    decreases |steps|
  {
    if steps == [] then t == s
    else Enabled(s, steps[0]) && Run(h, Apply(h, s, steps[0]), steps[1..], t)
  }

  // ---- Invariant ----------------------------------------------------------

  /** The only connection a call may have, by its phase. */
  predicate MayHave(phase: CallPhase, k: Id) {
    match phase
    case Connecting(_) => false
    case Recovering => false
    case Writing(_, own) => k == own
    case Reading(_, own) => k == own
    case Returned(_) => true
  }

  ghost predicate LinksOk<S>(s: State<S>) {
    && (forall k | k in s.links :: s.links[k].call in s.calls && MayHave(s.calls[s.links[k].call].phase, k))
    && (forall j, k | j in s.links && k in s.links && s.links[j].call == s.links[k].call :: j == k)
    && (forall c | c in s.calls && (s.calls[c].phase.Writing? || s.calls[c].phase.Reading?) ::
          s.calls[c].phase.link in s.links && s.links[s.calls[c].phase.link].call == c
          && (s.calls[c].phase.Writing? ==> !s.links[s.calls[c].phase.link].arrived))
    && (forall k | k in s.links && s.links[k].answer.Some? :: s.links[k].arrived)
  }

  /** Each run belongs to its connection, which it answered with its result. */
  ghost predicate RunsOk<S>(s: State<S>) {
    && (forall i | 0 <= i < |s.runs| ::
          s.runs[i].link in s.links && s.links[s.runs[i].link].call == s.runs[i].call
          && s.links[s.runs[i].link].answer == Some(AnswerFrame(s.runs[i].result)))
    && (forall i, j | 0 <= i < j < |s.runs| :: s.runs[i].link != s.runs[j].link)
    && (forall k | k in s.links && s.links[k].answer.Some? :: exists i :: 0 <= i < |s.runs| && s.runs[i].link == k)
  }

  function AnswerFrame(r: Result<bytes, bytes>): Frame {
    match r
    case Ok(response) => Frame(Response, 0, response)
    case Err(message) => Frame(Error, 0, message)
  }

  ghost predicate ResultsOk<S>(s: State<S>) {
    forall c | c in s.calls && s.calls[c].phase.Returned? && s.calls[c].phase.result.Ok? ::
      exists i :: 0 <= i < |s.runs| && s.runs[i].call == c && s.runs[i].result == Ok(s.calls[c].phase.result.value)
  }

  /** How often a call has sent, by its phase: recovery leads to one more send, and only once. */
  predicate SendsMatch(call: Call) {
    match call.phase
    case Connecting(retry) => call.sends == (if retry then 1 else 0) && (retry ==> call.autoStart)
    case Writing(retry, _) => call.sends == (if retry then 2 else 1) && (retry ==> call.autoStart)
    case Reading(retry, _) => call.sends == (if retry then 2 else 1) && (retry ==> call.autoStart)
    case Recovering => call.sends == 1 && call.autoStart
    case Returned(_) => 1 <= call.sends <= if call.autoStart then 2 else 1
  }

  ghost predicate SendsOk<S>(s: State<S>) {
    forall c | c in s.calls :: SendsMatch(s.calls[c])
  }

  lemma StepKeepsSends<S>(h: Handler<S>, s: State<S>, step: Step<S>)
    requires SendsOk(s) && Enabled(s, step)
    ensures SendsOk(Apply(h, s, step))
  {
    var s' := Apply(h, s, step);
    forall c | c in s'.calls ensures SendsMatch(s'.calls[c]) {
      if c in s.calls { assert SendsMatch(s.calls[c]); }
    }
  }

  lemma OpeningKeepsLinks<S>(h: Handler<S>, s: State<S>, step: Step<S>)
    requires LinksOk(s) && Enabled(s, step) && (step.Begin? || step.Connect? || step.ConnectFails? || step.Recover?)
    ensures LinksOk(Apply(h, s, step))
  {}

  lemma WriteKeepsLinks<S>(h: Handler<S>, s: State<S>, step: Step<S>)
    requires LinksOk(s) && Enabled(s, step) && Tame(step) && (step.Write? || step.WriteFails?)
    ensures LinksOk(Apply(h, s, step))
  {}

  lemma ReadKeepsLinks<S>(h: Handler<S>, s: State<S>, step: Step<S>)
    requires LinksOk(s) && Enabled(s, step) && Tame(step) && (step.Read? || step.ReadFails?)
    ensures LinksOk(Apply(h, s, step))
  {}

  lemma DaemonKeepsLinks<S>(h: Handler<S>, s: State<S>, step: Step<S>)
    requires LinksOk(s) && Enabled(s, step) && (step.Boot? || step.Crash? || step.Handle? || step.Reply?)
    ensures LinksOk(Apply(h, s, step))
  {}

  lemma StepKeepsLinks<S>(h: Handler<S>, s: State<S>, step: Step<S>)
    requires LinksOk(s) && Enabled(s, step) && Tame(step)
    ensures LinksOk(Apply(h, s, step))
  {
    if step.Begin? || step.Connect? || step.ConnectFails? || step.Recover? {
      OpeningKeepsLinks(h, s, step);
    } else if step.Write? || step.WriteFails? {
      WriteKeepsLinks(h, s, step);
    } else if step.Read? || step.ReadFails? {
      ReadKeepsLinks(h, s, step);
    } else {
      DaemonKeepsLinks(h, s, step);
    }
  }

  lemma HandleKeepsRuns<S>(h: Handler<S>, s: State<S>, k: Id)
    requires LinksOk(s) && RunsOk(s) && Enabled(s, Handle(k))
    ensures RunsOk(Apply(h, s, Handle(k)))
  {
    var s' := Apply(h, s, Handle(k));
    assert s'.runs[|s.runs|].link == k;
    forall j | j in s'.links && s'.links[j].answer.Some? && j != k
      ensures exists i :: 0 <= i < |s'.runs| && s'.runs[i].link == j
    {
      var i :| 0 <= i < |s.runs| && s.runs[i].link == j;
      assert s'.runs[i].link == j;
    }
  }

  lemma StepKeepsRuns<S>(h: Handler<S>, s: State<S>, step: Step<S>)
    requires LinksOk(s) && RunsOk(s) && Enabled(s, step)
    ensures RunsOk(Apply(h, s, step))
  {
    if step.Handle? { HandleKeepsRuns(h, s, step.link); }
  }

  lemma StepKeepsResults<S>(h: Handler<S>, s: State<S>, step: Step<S>)
    requires LinksOk(s) && RunsOk(s) && ResultsOk(s) && Enabled(s, step)
    ensures ResultsOk(Apply(h, s, step))
  {
    var s' := Apply(h, s, step);
    assert s.runs <= s'.runs;
    forall c | c in s'.calls && s'.calls[c].phase.Returned? && s'.calls[c].phase.result.Ok?
      ensures exists i ::
                0 <= i < |s'.runs| && s'.runs[i].call == c && s'.runs[i].result == Ok(s'.calls[c].phase.result.value)
    {
      if c in s.calls && s.calls[c] == s'.calls[c] {
        var i :| 0 <= i < |s.runs| && s.runs[i].call == c && s.runs[i].result == Ok(s.calls[c].phase.result.value);
        assert s'.runs[i] == s.runs[i];
      } else {
        assert step == Read(c);
        var k := s.calls[c].phase.link;
        var i :| 0 <= i < |s.runs| && s.runs[i].link == k;
        assert s'.runs[i].call == c && AnswerFrame(s.runs[i].result) == s.links[k].answer.value;
      }
    }
  }

  lemma {:induction false} RunKeeps<S>(h: Handler<S>, s: State<S>, steps: seq<Step<S>>, t: State<S>)
    requires LinksOk(s) && RunsOk(s) && ResultsOk(s)
    requires Run(h, s, steps, t) && forall i | 0 <= i < |steps| :: Tame(steps[i])
    ensures LinksOk(t) && RunsOk(t) && ResultsOk(t)
    decreases |steps|
  {
    if steps != [] {
      StepKeepsLinks(h, s, steps[0]);
      StepKeepsRuns(h, s, steps[0]);
      StepKeepsResults(h, s, steps[0]);
      RunKeeps(h, Apply(h, s, steps[0]), steps[1..], t);
    }
  }

  lemma {:induction false} RunKeepsSends<S>(h: Handler<S>, s: State<S>, steps: seq<Step<S>>, t: State<S>)
    requires SendsOk(s) && Run(h, s, steps, t)
    ensures SendsOk(t)
    decreases |steps|
  {
    if steps != [] {
      StepKeepsSends(h, s, steps[0]);
      RunKeepsSends(h, Apply(h, s, steps[0]), steps[1..], t);
    }
  }

  /** In every run a call sends at most twice, and at most once without auto-start. */
  lemma SingleRetry<S>(h: Handler<S>, steps: seq<Step<S>>, t: State<S>, c: Id)
    requires Run(h, Empty(), steps, t) && c in t.calls
    ensures t.calls[c].sends <= if t.calls[c].autoStart then 2 else 1
    ensures t.calls[c].phase.Returned? ==> t.calls[c].sends >= 1
  {
    RunKeepsSends(h, Empty(), steps, t);
    assert SendsMatch(t.calls[c]);
  }

  /** In every run in which the recoverable errors come from connect only: the handler runs at
      most once for a call, and a call that returns Ok(r) had it run and return r. */
  lemma RequestAtMostOnce<S>(h: Handler<S>, steps: seq<Step<S>>, t: State<S>, c: Id)
    requires Run(h, Empty(), steps, t) && forall i | 0 <= i < |steps| :: Tame(steps[i])
    ensures forall i, j | 0 <= i < |t.runs| && 0 <= j < |t.runs| && t.runs[i].call == c && t.runs[j].call == c :: i == j
    ensures c in t.calls && t.calls[c].phase.Returned? && t.calls[c].phase.result.Ok? ==>
              exists i ::
                0 <= i < |t.runs| && t.runs[i].call == c && t.runs[i].result == Ok(t.calls[c].phase.result.value)
  {
    RunKeeps(h, Empty(), steps, t);
  }

  lemma {:induction false} Then<S>(h: Handler<S>, s: State<S>, steps: seq<Step<S>>, t: State<S>, step: Step<S>)
    requires Run(h, s, steps, t) && Enabled(t, step)
    ensures Run(h, s, steps + [step], Apply(h, t, step))
    decreases |steps|
  {
    if steps == [] {
      assert (steps + [step])[1..] == [];
      assert Run(h, Apply(h, t, step), [], Apply(h, t, step));
    } else {
      Then(h, Apply(h, s, steps[0]), steps[1..], t, step);
      assert (steps + [step])[1..] == steps[1..] + [step];
    }
  }

  /** The assumption is needed: if a recoverable kind comes from the read, one call can have
      the handler run twice. */
  lemma TwiceWithoutIt<S>(h: Handler<S>, initial: S, kind: IoKind) returns (steps: seq<Step<S>>, t: State<S>)
    requires Recoverable(kind)
    ensures Run(h, Empty(), steps, t)
    ensures |t.runs| == 2 && t.runs[0].call == t.runs[1].call
  {
    steps, t := [], Empty();
    Then(h, Empty(), steps, t, Boot(0, initial));
    steps, t := steps + [Boot(0, initial)], Apply(h, t, Boot(0, initial));
    Then(h, Empty(), steps, t, Begin(0, [], true));
    steps, t := steps + [Begin(0, [], true)], Apply(h, t, Begin(0, [], true));
    steps, t := OneHandling(h, steps, t, 0);
    Then(h, Empty(), steps, t, ReadFails(0, kind));
    steps, t := steps + [ReadFails(0, kind)], Apply(h, t, ReadFails(0, kind));
    Then(h, Empty(), steps, t, Recover(0, true, BadFrame));
    steps, t := steps + [Recover(0, true, BadFrame)], Apply(h, t, Recover(0, true, BadFrame));
    steps, t := OneHandling(h, steps, t, 1);
  }

  /** Call 0 connects to daemon 0, sends its request and has the handler run. */
  lemma OneHandling<S>(h: Handler<S>, before: seq<Step<S>>, s: State<S>, k: Id)
    returns (steps: seq<Step<S>>, t: State<S>)
    requires Run(h, Empty(), before, s) && k !in s.links && 0 in s.daemons
    requires 0 in s.calls && s.calls[0].phase.Connecting?
    ensures Run(h, Empty(), steps, t)
    ensures t.calls == s.calls[0 := s.calls[0].(phase := Reading(s.calls[0].phase.retry, k),
        sends := s.calls[0].sends + 1)]
    ensures t.links.Keys == s.links.Keys + {k} && 0 in t.daemons
    ensures |t.runs| == |s.runs| + 1 && t.runs[..|s.runs|] == s.runs && t.runs[|s.runs|].call == 0
  {
    Then(h, Empty(), before, s, Connect(0, k, 0));
    steps, t := before + [Connect(0, k, 0)], Apply(h, s, Connect(0, k, 0));
    Then(h, Empty(), steps, t, Write(0));
    steps, t := steps + [Write(0)], Apply(h, t, Write(0));
    ArrivedOnly(h, s, k);
    Then(h, Empty(), steps, t, Handle(k));
    steps, t := steps + [Handle(k)], Apply(h, t, Handle(k));
  }

  lemma ArrivedOnly<S>(h: Handler<S>, s: State<S>, k: Id)
    requires k !in s.links && 0 in s.daemons && 0 in s.calls && s.calls[0].phase.Connecting?
    ensures Enabled(s, Connect(0, k, 0)) && Enabled(Apply(h, s, Connect(0, k, 0)), Write(0))
    ensures var t := Apply(h, Apply(h, s, Connect(0, k, 0)), Write(0));
      && t.calls == s.calls[0 := s.calls[0].(phase := Reading(s.calls[0].phase.retry, k),
          sends := s.calls[0].sends + 1)]
      && t.links == s.links[k := Link(0, 0, true, None, false)] && t.daemons == s.daemons && t.runs == s.runs
  {}
}
