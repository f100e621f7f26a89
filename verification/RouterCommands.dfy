/** The router's messages by their fields: which of them stop the daemon, reload the library or
    are routed, and what that comes to over a run. */
module RouterCommands {
  import opened Wrappers
  import opened RouterSpec
  import opened RouterRuns

  /** A message of this protocol. */
  predicate Spoken(msg: Message) {
    msg.Message? && msg.magic == 0x494F5352 && msg.version == 1
  }

  /** A control message whose path begins with a word. */
  predicate Orders(msg: Message, word: string) {
    Spoken(msg) && msg.req.tool == 0 && word <= msg.req.path
  }

  predicate IsControl(msg: Message) {
    Orders(msg, "PING") || Orders(msg, "SHUTDOWN") || Orders(msg, "RELOAD")
  }

  lemma OneOrder(msg: Message)
    ensures !(Orders(msg, "PING") && Orders(msg, "SHUTDOWN"))
    ensures !(Orders(msg, "PING") && Orders(msg, "RELOAD")) && !(Orders(msg, "SHUTDOWN") && Orders(msg, "RELOAD"))
  {
    if Orders(msg, "PING") { assert msg.req.path[0] == 'P'; }
    if Orders(msg, "SHUTDOWN") { assert msg.req.path[0] == 'S'; }
    if Orders(msg, "RELOAD") { assert msg.req.path[0] == 'R'; }
  }

  /** What a connection changes, field by field, and what it is answered. */
  lemma ConnectionMeans(tables: RuleTables, st: State, ev: Event)
    requires ValidState(st)
    ensures var st' := Next(tables, st, ev);
      && st'.running == (st.running && !Orders(ev.msg, "SHUTDOWN"))
      && st'.lib == (if Orders(ev.msg, "RELOAD") then Load(tables, ev.dir) else st.lib)
      && st'.table
         == (if Spoken(ev.msg) && !IsControl(ev.msg) then Respond(st.lib, st.table, ev.msg.req).table else st.table)
    ensures AnswerTo(st, ev)
         == if !Spoken(ev.msg) then Closed
            else if IsControl(ev.msg) then Answer(Matched, 0, [])
            else
              var r := Respond(st.lib, st.table, ev.msg.req);
              Answer(r.status, r.count, r.content)
  {
    OneOrder(ev.msg);
  }

  /** One more connection, by its fields. */
  lemma RunOn(tables: RuleTables, dir: seq<Entry>, evs: seq<Event>, ev: Event)
    requires DirValid(dir) && EventsValid(evs + [ev])
    ensures EventsValid(evs)
    ensures var st, st' := Run(tables, dir, evs).st, Run(tables, dir, evs + [ev]).st;
      && st'.running == (st.running && !Orders(ev.msg, "SHUTDOWN"))
      && st'.lib == (if Orders(ev.msg, "RELOAD") then Load(tables, ev.dir) else st.lib)
  {
    assert (evs + [ev])[..|evs|] == evs;
    ConnectionMeans(tables, Run(tables, dir, evs).st, ev);
  }

  predicate NoneOrders(evs: seq<Event>, word: string) {
    forall i | 0 <= i < |evs| :: !Orders(evs[i].msg, word)
  }

  lemma NoneOrdersOn(evs: seq<Event>, ev: Event, word: string)
    ensures NoneOrders(evs + [ev], word) <==> NoneOrders(evs, word) && !Orders(ev.msg, word)
  {
    assert (evs + [ev])[|evs|] == ev;
    assert forall i | 0 <= i < |evs| :: (evs + [ev])[i] == evs[i];
  }

  /** The daemon runs on exactly until a SHUTDOWN. */
  lemma {:induction false} RunStops(tables: RuleTables, dir: seq<Entry>, evs: seq<Event>)
    requires DirValid(dir) && EventsValid(evs)
    ensures Run(tables, dir, evs).st.running <==> NoneOrders(evs, "SHUTDOWN")
  {
    if evs != [] {
      var front, ev := evs[..|evs| - 1], evs[|evs| - 1];
      assert evs == front + [ev];
      RunOn(tables, dir, front, ev);
      RunStops(tables, dir, front);
      NoneOrdersOn(front, ev, "SHUTDOWN");
    }
  }

  predicate LastReload(evs: seq<Event>, i: nat) {
    i < |evs| && Orders(evs[i].msg, "RELOAD") && forall j | i < j < |evs| :: !Orders(evs[j].msg, "RELOAD")
  }

  /** The library is that of the directory as the last RELOAD found it. */
  lemma {:induction false} RunLibrary(tables: RuleTables, dir: seq<Entry>, evs: seq<Event>, i: nat)
    requires DirValid(dir) && EventsValid(evs) && LastReload(evs, i)
    ensures Run(tables, dir, evs).st.lib == Load(tables, evs[i].dir)
  {
    var front, ev := evs[..|evs| - 1], evs[|evs| - 1];
    assert evs == front + [ev];
    RunOn(tables, dir, front, ev);
    if i < |front| {
      assert forall j | 0 <= j < |front| :: front[j] == evs[j];
      RunLibrary(tables, dir, front, i);
    }
  }

  /** Or, without one, as start-up did. */
  lemma {:induction false} RunFirstLibrary(tables: RuleTables, dir: seq<Entry>, evs: seq<Event>)
    requires DirValid(dir) && EventsValid(evs) && NoneOrders(evs, "RELOAD")
    ensures Run(tables, dir, evs).st.lib == Load(tables, dir)
  {
    if evs != [] {
      var front, ev := evs[..|evs| - 1], evs[|evs| - 1];
      assert evs == front + [ev];
      RunOn(tables, dir, front, ev);
      NoneOrdersOn(front, ev, "RELOAD");
      RunFirstLibrary(tables, dir, front);
    }
  }

  // ---- The end of the main loop -------------------------------------------

  predicate NoneConnected(turns: seq<Turn>, from: nat, n: nat)
    requires n <= |turns|
  {
    forall i | from <= i < n :: !turns[i].what.Connected?
  }

  /** Round i has the last connection of the first n rounds. */
  predicate LastConnected(turns: seq<Turn>, n: nat, i: nat)
    requires n <= |turns|
  {
    i < n && turns[i].what.Connected? && NoneConnected(turns, i + 1, n)
  }

  /** A quiet select more than 300 seconds after the last connection before it, or the start. */
  ghost predicate QuietTooLong(turns: seq<Turn>, n: nat, start: int)
    requires n < |turns|
  {
    && turns[n].what.Quiet?
    && (NoneConnected(turns, 0, n) ==> turns[n].time - start > 300)
    && forall i: nat | LastConnected(turns, n, i) :: turns[n].time - turns[i].time > 300
  }

  lemma {:induction false} LastHeardAt(turns: seq<Turn>, n: nat, start: int)
    requires n <= |turns|
    ensures NoneConnected(turns, 0, n) ==> LastHeard(turns, n, start) == start
    ensures forall i: nat | LastConnected(turns, n, i) :: LastHeard(turns, n, start) == turns[i].time
    ensures NoneConnected(turns, 0, n) || exists i: nat :: LastConnected(turns, n, i)
  {
    if n > 0 {
      LastHeardAt(turns, n - 1, start);
      if turns[n - 1].what.Connected? {
        assert LastConnected(turns, n, n - 1);
        assert forall i: nat | LastConnected(turns, n, i) :: i == n - 1;
      } else {
        assert forall i: nat | i < n :: LastConnected(turns, n, i) <==> LastConnected(turns, n - 1, i);
      }
    }
  }

  lemma EndsByFields(turns: seq<Turn>, n: nat, start: int)
    requires n < |turns|
    ensures EndsLoop(turns[n], LastHeard(turns, n, start)) <==> turns[n].what.Broken? || QuietTooLong(turns, n, start)
  {
    LastHeardAt(turns, n, start);
  }

  lemma {:induction false} GoesOnByFields(turns: seq<Turn>, n: nat, start: int, m: nat)
    requires m < n <= |turns| && GoesOn(turns, n, start)
    ensures !turns[m].what.Broken? && !QuietTooLong(turns, m, start)
  {
    if m == n - 1 { EndsByFields(turns, m, start); } else { GoesOnByFields(turns, n - 1, start, m); }
  }

  /** The main loop ends at the first round in which select fails or is quiet for too long. */
  lemma LoopEnds(tables: RuleTables, dir: seq<Entry>, turns: seq<Turn>, start: int)
    requires DirValid(dir) && TurnsValid(turns)
    ensures var l := LoopAfter(tables, dir, turns, start);
      && l.used <= |turns| && (l.over ==> l.used > 0)
      && (l.over ==> turns[l.used - 1].what.Broken? || QuietTooLong(turns, l.used - 1, start))
      && (forall m | 0 <= m < if l.over then l.used - 1 else l.used ::
            !turns[m].what.Broken? && !QuietTooLong(turns, m, start))
      && (l.used < |turns| ==> l.over || !l.st.running)
  {
    LoopMeans(tables, dir, turns, start);
    var l := LoopAfter(tables, dir, turns, start);
    var n := if l.over then l.used - 1 else l.used;
    if l.over { EndsByFields(turns, n, start); }
    forall m | 0 <= m < n ensures !turns[m].what.Broken? && !QuietTooLong(turns, m, start) {
      GoesOnByFields(turns, n, start, m);
    }
  }

  /** A round after which the flag is cleared: a signal came in, or a SHUTDOWN. */
  predicate Stops(turn: Turn) {
    turn.signal || (turn.what.Connected? && Orders(turn.what.ev.msg, "SHUTDOWN"))
  }

  predicate NoneStops(turns: seq<Turn>, n: int)
    requires n <= |turns|
  {
    forall m | 0 <= m < n :: !Stops(turns[m])
  }

  /** The rounds that the loop went through without ending in them, when it is at l. */
  function Passed(l: Loop): int {
    if l.over then l.used - 1 else l.used
  }

  /** All rounds before the last were made with the flag set, and it is set still exactly if the
      last one left it so; while it is, and no round has ended the loop, every round is made. */
  predicate FlagMeans(turns: seq<Turn>, l: Loop) {
    && Passed(l) <= l.used <= |turns| && NoneStops(turns, l.used - 1)
    && (l.st.running <==> NoneStops(turns, Passed(l)))
    && (l.st.running && !l.over ==> l.used == |turns|)
  }

  /** The flag of the main loop by the fields of its rounds. */
  lemma {:induction false} LoopRuns(tables: RuleTables, dir: seq<Entry>, turns: seq<Turn>, start: int)
    requires DirValid(dir) && TurnsValid(turns)
    ensures FlagMeans(turns, LoopAfter(tables, dir, turns, start))
  {
    if turns != [] {
      var front, turn := turns[..|turns| - 1], turns[|turns| - 1];
      LoopRuns(tables, dir, front, start);
      assert turns == front + [turn];
      FlagOn(tables, front, turn, LoopAfter(tables, dir, front, start));
    }
  }

  lemma FlagOn(tables: RuleTables, front: seq<Turn>, turn: Turn, l: Loop)
    requires ValidState(l.st) && TurnValid(turn) && FlagMeans(front, l)
    ensures FlagMeans(front + [turn], Round(tables, l, turn))
  {
    var turns, l' := front + [turn], Round(tables, l, turn);
    assert forall m | 0 <= m < |front| :: turns[m] == front[m];
    if turn.what.Connected? { ConnectionMeans(tables, l.st, turn.what.ev); }
    if l.st.running && !l.over && !l'.over {
      assert NoneStops(turns, |front|);
      assert l'.st.running <==> !Stops(turns[|front|]);
    }
  }
}
