/** frontend/src/lib/agent-run-timeout.ts: AgentRunCompletionReconciler.

The JavaScript runtime is part of the state: armed timers and unsettled status reads are
continuations that may run later, in any order, after any number of start() and clear() calls. */
module Reconciler {
  import opened Values

  const INITIAL_DELAY_MS := 12_000
  const INTERVAL_MS := 3_000

  datatype Timer = Timer(generation: nat, delayMs: nat)

  datatype Terminal = Terminal(generation: nat, status: string)

  datatype State = State(
    timer: Option<nat>,          // this.timer: the handle of a timer
    active: bool,
    generation: nat,
    armed: map<nat, Timer>,      // timers that have neither fired nor been cleared
    inFlight: map<nat, nat>,        // unsettled reads, with the generation their closure captured
    nextId: nat,
    started: seq<nat>,           // generations of the start() calls that took effect
    terminals: seq<Terminal>)    // the onTerminal calls so far

  const Fresh := State(None, false, 0, map[], map[], 0, [], [])

  /** What a settled read brings: nothing when it threw. */
  datatype Event =
    | Start
    | Clear
    | TimerFires(id: nat)
    | ReadSettles(id: nat, status: Option<string>)

  predicate IsTerminal(status: Option<string>) {
    status.Some? && (status.value == "error" || status.value == "success"
                     || status.value == "timeout" || status.value == "interrupted")
  }

  function Schedule(s: State, generation: nat, delayMs: nat): State {
    s.(timer := Some(s.nextId), armed := s.armed[s.nextId := Timer(generation, delayMs)], nextId := s.nextId + 1)
  }

  function Apply(s: State, e: Event): State {
    match e
    case Start =>
      if s.active then s
      else
        var g := s.generation + 1;
        Schedule(s.(active := true, generation := g, started := s.started + [g]), g, INITIAL_DELAY_MS)
    case Clear =>
      var t := s.(active := false, generation := s.generation + 1);
      if s.timer.None? then t else t.(armed := s.armed - {s.timer.value}, timer := None)
    case TimerFires(id) =>
      if id !in s.armed then s
      else
        var unsettled := s.inFlight[s.nextId := s.armed[id].generation];
        s.(timer := None, armed := s.armed - {id}, inFlight := unsettled, nextId := s.nextId + 1)
    case ReadSettles(id, status) =>
      if id !in s.inFlight then s
      else
        var g := s.inFlight[id];
        var t := s.(inFlight := s.inFlight - {id});
        if !s.active || g != s.generation then t
        else if IsTerminal(status) then t.(active := false, terminals := s.terminals + [Terminal(g, status.value)])
        else Schedule(t, g, INTERVAL_MS)
  }

  function CurrentReads(s: State): set<nat> { set r | r in s.inFlight && s.inFlight[r] == s.generation }

  /** Continuations that may still act for the running start(). */
  function LiveCount(s: State): nat { |s.armed| + |CurrentReads(s)| }

  ghost predicate Inv(s: State) {
    && (forall r | r in s.inFlight :: r < s.nextId && s.inFlight[r] <= s.generation)
    && (forall i | i in s.armed :: i < s.nextId)
    && (if !s.active then s.timer.None? && s.armed == map[] && CurrentReads(s) == {}
        else if s.timer.Some? then
          s.timer.value in s.armed && s.armed.Keys == {s.timer.value}
          && s.armed[s.timer.value].generation == s.generation && CurrentReads(s) == {}
        else s.armed == map[] && exists r :: CurrentReads(s) == {r})
    && (forall i | 0 <= i < |s.started| :: s.started[i] <= s.generation)
    && (s.active ==> s.generation in s.started)
    && (forall i | 0 <= i < |s.terminals| :: s.terminals[i].generation in s.started)
    && (forall i | 0 <= i < |s.terminals| :: s.terminals[i].generation == s.generation ==> !s.active)
    && (forall i, j | 0 <= i < j < |s.terminals| :: s.terminals[i].generation != s.terminals[j].generation)
    && (forall i, j | 0 <= i < j < |s.started| :: s.started[i] != s.started[j])
  }

  lemma StartKeeps(s: State)
    requires Inv(s)
    ensures Inv(Apply(s, Start))
  {
    if !s.active {
      var t := Apply(s, Start);
      assert CurrentReads(t) == {};
      assert t.armed.Keys == {s.nextId};
      assert t.started[|s.started|] == t.generation;
      forall i | 0 <= i < |t.terminals| ensures t.terminals[i].generation in t.started {
        assert t.terminals[i] == s.terminals[i];
      }
    }
  }

  lemma ClearKeeps(s: State)
    requires Inv(s)
    ensures Inv(Apply(s, Clear))
  {
    assert CurrentReads(Apply(s, Clear)) == {};
  }

  lemma TimerKeeps(s: State, id: nat)
    requires Inv(s)
    ensures Inv(Apply(s, TimerFires(id)))
  {
    if id in s.armed {
      var t := Apply(s, TimerFires(id));
      assert t.armed == map[];
      assert CurrentReads(t) == {s.nextId};
    }
  }

  lemma ReadKeeps(s: State, id: nat, status: Option<string>)
    requires Inv(s)
    ensures Inv(Apply(s, ReadSettles(id, status)))
  {
    if id in s.inFlight {
      var t := Apply(s, ReadSettles(id, status));
      if !s.active || s.inFlight[id] != s.generation {
        assert CurrentReads(t) == CurrentReads(s);
      } else {
        assert id in CurrentReads(s);
        assert CurrentReads(s) == {id};
        assert forall r :: r in t.inFlight ==> r in s.inFlight && t.inFlight[r] == s.inFlight[r] && r != id;
        assert forall r :: r in s.inFlight && s.inFlight[r] == s.generation ==> r in CurrentReads(s);
        assert CurrentReads(t) == {};
        if !IsTerminal(status) { assert t.armed.Keys == {s.nextId}; }
      }
    }
  }

  function Run(events: seq<Event>): State
    decreases |events|
  {
    if events == [] then Fresh else Apply(Run(events[..|events| - 1]), events[|events| - 1])
  }

  lemma {:induction false} Reachable(events: seq<Event>)
    ensures Inv(Run(events))
    decreases |events|
  {
    if events != [] {
      var s := Run(events[..|events| - 1]);
      Reachable(events[..|events| - 1]);
      match events[|events| - 1]
      case Start => StartKeeps(s);
      case Clear => ClearKeeps(s);
      case TimerFires(id) => TimerKeeps(s, id);
      case ReadSettles(id, status) => ReadKeeps(s, id, status);
    } else {
      assert CurrentReads(Fresh) == {};
    }
  }

  /** Over every interleaving: active exactly when one continuation is live, and never more than one is. */
  lemma ActiveIffOneLive(events: seq<Event>)
    ensures Run(events).active <==> LiveCount(Run(events)) == 1
    ensures !Run(events).active <==> LiveCount(Run(events)) == 0
  {
    var s := Run(events);
    Reachable(events);
    if s.active && s.timer.Some? { assert |s.armed.Keys| == 1; }
  }

  /** onTerminal is called at most once for each start() that took effect, and only for such a start(). */
  lemma TerminalOncePerStart(events: seq<Event>)
    ensures var s := Run(events);
      && (forall i | 0 <= i < |s.terminals| :: s.terminals[i].generation in s.started)
      && (forall i, j | 0 <= i < j < |s.terminals| :: s.terminals[i].generation != s.terminals[j].generation)
      && (forall i, j | 0 <= i < j < |s.started| :: s.started[i] != s.started[j])
  {
    Reachable(events);
  }

  predicate Extends(a: State, b: State) {
    && a.generation <= b.generation && a.started <= b.started && a.terminals <= b.terminals
    && forall n | |a.started| <= n < |b.started| :: b.started[n] > a.generation
  }

  lemma StepExtends(s: State, e: Event)
    ensures Extends(s, Apply(s, e))
  {
  }

  /** From a point on, terminals and starts only accumulate, and generations never go back. */
  lemma {:induction false} Onward(events: seq<Event>, i: nat)
    requires i <= |events|
    ensures Extends(Run(events[..i]), Run(events))
    decreases |events|
  {
    hide Apply;
    if i < |events| {
      var front := events[..|events| - 1];
      assert front[..i] == events[..i];
      Onward(front, i);
      StepExtends(Run(front), events[|events| - 1]);
      ExtendsTransitive(Run(events[..i]), Run(front), Run(events));
    } else { assert events[..i] == events; }
  }

  lemma ExtendsTransitive(a: State, b: State, c: State)
    requires Extends(a, b) && Extends(b, c)
    ensures Extends(a, c)
  {
    forall n | |a.started| <= n < |c.started| ensures c.started[n] > a.generation {
      if n < |b.started| { assert c.started[n] == b.started[n]; }
    }
  }

  /** After clear(), onTerminal is never called again for a start() made before it. */
  lemma NoTerminalAfterClear(events: seq<Event>, i: nat, n: nat)
    requires i < |events| && events[i] == Clear
    requires |Run(events[..i]).terminals| <= n < |Run(events).terminals|
    ensures Run(events).terminals[n].generation !in Run(events[..i]).started
  {
    var a, c := Run(events[..i]), Run(events[..i + 1]);
    assert events[..i + 1][..i] == events[..i];
    assert c == Apply(a, Clear);
    Reachable(events[..i]);
    LaterTerminals(events, i + 1, n);
  }

  /** A start() that was over at some point brings no later terminal. */
  lemma {:induction false} LaterTerminals(events: seq<Event>, i: nat, n: nat)
    requires i <= |events| && !Run(events[..i]).active
    requires |Run(events[..i]).terminals| <= n < |Run(events).terminals|
    ensures Run(events).terminals[n].generation > Run(events[..i]).generation
    decreases |events|
  {
    assert events[..|events|] == events;
    assert i < |events|;
    var front := events[..|events| - 1];
    assert front[..i] == events[..i];
    Onward(front, i);
    if n < |Run(front).terminals| {
      LaterTerminals(front, i, n);
    } else {
      Reachable(events[..i]);
      Reachable(front);
      ActiveAgainMeansRestarted(front, i);
    }
  }

  lemma {:induction false} ActiveAgainMeansRestarted(events: seq<Event>, i: nat)
    requires i <= |events| && !Run(events[..i]).active && Run(events).active
    ensures Run(events).generation > Run(events[..i]).generation
    decreases |events|
  {
    assert events[..|events|] == events;
    assert i < |events|;
    var front := events[..|events| - 1];
    assert front[..i] == events[..i];
    Onward(front, i);
    if Run(front).active { ActiveAgainMeansRestarted(front, i); }
  }

  /** A read that outlived its start() changes nothing but its own disappearance: it neither rearms nor reports. */
  lemma StaleReadIsHarmless(events: seq<Event>, id: nat, status: Option<string>)
    requires id in Run(events).inFlight && Run(events).inFlight[id] != Run(events).generation
    ensures var s, t := Run(events), Apply(Run(events), ReadSettles(id, status));
      && t == s.(inFlight := s.inFlight - {id}) && LiveCount(t) == LiveCount(s)
  {
    var s, t := Run(events), Apply(Run(events), ReadSettles(id, status));
    assert CurrentReads(t) == CurrentReads(s);
  }

  /** The class, with the runtime's continuations as fields. */
  class AgentRunCompletionReconciler {
    var timer: Option<nat>
    var active: bool
    var generation: nat
    var armed: map<nat, Timer>
    var inFlight: map<nat, nat>
    var nextId: nat
    ghost var started: seq<nat>
    var terminals: seq<Terminal>

    ghost function Now(): State
      reads this
    {
      State(timer, active, generation, armed, inFlight, nextId, started, terminals)
    }

    constructor ()
      ensures Now() == Fresh
    {
      timer, active, generation, armed, inFlight, nextId, started, terminals := None, false, 0, map[], map[], 0, [], [];
    }

    method ScheduleTimer(generation: nat, delayMs: nat)
      modifies this`timer, this`armed, this`nextId
      ensures Now() == Schedule(old(Now()), generation, delayMs)
    {
      timer := Some(nextId);
      armed := armed[nextId := Timer(generation, delayMs)];
      nextId := nextId + 1;
    }

    method StartPolling()
      modifies this
      ensures Now() == Apply(old(Now()), Start)
    {
      if active { return; }
      active := true;
      generation := generation + 1;
      started := started + [generation];
      ScheduleTimer(generation, INITIAL_DELAY_MS);
    }

    method ClearPolling()
      modifies this
      ensures Now() == Apply(old(Now()), Clear)
    {
      active := false;
      generation := generation + 1;
      if timer.None? { return; }
      armed := armed - {timer.value};
      timer := None;
    }

    /** The timer's callback, up to `await readStatus()`. */
    method OnTimer(id: nat)
      modifies this
      ensures Now() == Apply(old(Now()), TimerFires(id))
    {
      if id in armed {
        var captured := armed[id].generation;
        timer := None;
        armed := armed - {id};
        inFlight := inFlight[nextId := captured];
        nextId := nextId + 1;
      }
    }

    /** The rest of the callback, once the read has resolved or thrown. */
    method OnRead(id: nat, status: Option<string>)
      modifies this
      ensures Now() == Apply(old(Now()), ReadSettles(id, status))
    {
      if id !in inFlight { return; }
      var captured := inFlight[id];
      inFlight := inFlight - {id};
      if !active || captured != generation { return; }
      if IsTerminal(status) {
        active := false;
        terminals := terminals + [Terminal(captured, status.value)];
        return;
      }
      ScheduleTimer(captured, INTERVAL_MS);
    }
  }
}
