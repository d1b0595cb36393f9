/** Repeating a decision that was committed: when another worker recognises it, over all schedules. */
module ToolReplay {
  import opened Values
  import opened ToolRows
  import opened ToolSystem
  import opened ToolGuarantees
  import R = ToolRefinement
  import Seq = ToolStore

  /** A worker is about to read the approval for a decision; `seen` is the invocation it read a statement before. */
  predicate Loading(wk: Worker,
                    d: Decision) { wk.job.DecideLoad? && wk.job.i < |wk.job.ds| && wk.job.ds[wk.job.i] == d }

  /** The statement accepts the decision and the worker goes on to the next one. */
  predicate Accepts(s: State, t: State, w: nat) {
    var wk := WorkerOf(s, w);
    wk.job.DecideLoad? && t.log == s.log
    && WorkerOf(t, w) == Worker(DecideRead(wk.job.ds, wk.job.i + 1, wk.job.pass), wk.tx, wk.made)
  }

  /** A reading that is older than the decision can only be PENDING_APPROVAL; any later one matches. */
  lemma SeenIff(k: Key, r: Rows, d: Decision, seen: Invocation)
    requires RowsOk(k, r) && r.approval.Some? && DecisionMatches(r.approval.value, r.inv, d)
    requires InvEvolves(seen, r.inv) && seen.status != Pending
    ensures DecisionMatches(r.approval.value, seen, d) <==> seen.status != PendingApproval
  {
    hide Canonical, JsonObject;
  }

  lemma DecidedIff(k: Key, r: Rows, d: Decision, seen: Invocation)
    requires RowsOk(k, r) && DecidedBy(r, d) && InvEvolves(seen, r.inv) && seen.status != Pending
    ensures DecisionMatches(r.approval.value, seen, d) <==> Repeatable(d) && seen.status != PendingApproval
  {
    hide Canonical, JsonObject;
    CanonicalStableIff(d.payload);
    CanonicalStableIff(d.effectiveInput);
  }

  /** Once the approval is settled, the statement compares it with the reading of the invocation before it. */
  lemma LoadMove(db: Db, w: nat, wk: Worker, owners: map<string, string>, blocked: bool, d: Decision)
    requires DbOk(db) && JobOk(db, wk) && Loading(wk, d)
    requires KeyOf(d.call) in db && Settling(db[KeyOf(d.call)].approval)
    ensures InvEvolves(wk.job.seen, db[KeyOf(d.call)].inv) && wk.job.seen.status != Pending
    ensures NextMove(db, w, wk, owners, blocked)
      == if DecisionMatches(db[KeyOf(d.call)].approval.value, wk.job.seen, d)
         then Quiet(Worker(DecideRead(wk.job.ds, wk.job.i + 1, wk.job.pass), wk.tx, wk.made), [])
         else Refuse(w, ApprovalConflict)
  {
    hide JsonObject, DecisionMatches, HonouredPrefix, RowsOk, InvEvolves, AcceptsCall;
    var k := KeyOf(d.call);
    if k in wk.tx { MadeOpen(db, wk.tx, wk.made, k); }
  }

  lemma LoadStep(s: State, w: nat, owners: map<string, string>, d: Decision)
    requires Inv(s) && Loading(WorkerOf(s, w), d)
    requires KeyOf(d.call) in s.db && Settling(s.db[KeyOf(d.call)].approval)
    ensures var r, seen := s.db[KeyOf(d.call)], WorkerOf(s, w).job.seen;
      RowsOk(KeyOf(d.call), r) && InvEvolves(seen, r.inv) && seen.status != Pending
    ensures var t, r, seen := Apply(s, w, Step(owners)), s.db[KeyOf(d.call)], WorkerOf(s, w).job.seen;
      && t.db == s.db
      && if DecisionMatches(r.approval.value, seen, d) then Accepts(s, t, w)
         else t.log == s.log + [Refused(w, ApprovalConflict)] && WorkerOf(t, w) == Resting
  {
    hide Inv, NextMove, DecisionMatches, JobOk, Blocked, KeyFor, RowsOk, InvEvolves;
    WorkerJobOk(s, w);
    LoadMove(s.db, w, WorkerOf(s, w), owners, Blocked(s, w, KeyFor(WorkerOf(s, w).job)), d);
    assert RowsOk(KeyOf(d.call), s.db[KeyOf(d.call)]);
    assert s.log + [] == s.log;
  }

  /** The exact condition, over all schedules: the very decision that was committed is recognised if and only if
      its payload and arguments are settled and the worker read the invocation after the commit. A worker that
      read it before, as PENDING_APPROVAL, and the approval after, is refused with ApprovalConflict. */
  lemma RepeatedDecisionIff(sched: seq<Turn>, m: nat, w: nat, owners: map<string, string>)
    requires m < |Exec(sched).log| && Exec(sched).log[m].Decided?
    requires Loading(WorkerOf(Exec(sched), w), Exec(sched).log[m].d)
    ensures var s, t := Exec(sched), Apply(Exec(sched), w, Step(owners));
      var d, seen := s.log[m].d, WorkerOf(s, w).job.seen;
      && (Accepts(s, t, w) <==> Repeatable(d) && seen.status != PendingApproval)
      && (t.log == s.log + [Refused(w, ApprovalConflict)] <==> !Repeatable(d) || seen.status == PendingApproval)
      && t.db == s.db
  {
    hide Exec, Inv, Apply, Repeatable, RowsOk, InvEvolves, DecisionMatches;
    var s, d := Exec(sched), Exec(sched).log[m].d;
    Reachable(sched);
    LoggedEvent(s, m);
    LoadStep(s, w, owners, d);
    DecidedIff(KeyOf(d.call), s.db[KeyOf(d.call)], d, WorkerOf(s, w).job.seen);
  }

  // ---- A resume that begins after the commit -----------------------------------------------

  /** The rows are those of the decision's call and compare equal to it. */
  predicate Recognisable(db: Db, d: Decision) { AcceptsCall(db, d.call) && Matched(db, d) }

  ghost predicate AllRecognisable(db: Db, ds: seq<Decision>) {
    forall i | 0 <= i < |ds| :: Recognisable(db, ds[i])
  }

  lemma RecognisableStable(a: Db, b: Db, ds: seq<Decision>)
    requires DbOk(a) && DbEvolves(a, b) && AllRecognisable(a, ds)
    ensures AllRecognisable(b, ds)
  {
    hide PayloadMatches, DecisionMatches, RowsOk;
    forall i | 0 <= i < |ds| ensures Recognisable(b, ds[i]) {
      var k := KeyOf(ds[i].call);
      assert Recognisable(a, ds[i]);
      assert RowsOk(k, a[k]) && Evolves(a[k], b[k]);
      RowFacts(k, a[k]);
      PayloadIsStable(a[k].inv, b[k].inv, ds[i].call, false);
      MatchIsStable(k, a[k], b[k], ds[i]);
    }
  }

  /** A batch that returned has left rows that recognise every settled decision of it. */
  lemma RecordedIsRecognisable(s: State, n: nat, ds: seq<Decision>)
    requires Inv(s) && n < |s.log| && s.log[n] == Recorded(ds)
    requires forall i | 0 <= i < |ds| :: Repeatable(ds[i])
    ensures AllRecognisable(s.db, ds)
  {
    hide Inv, Repeatable, Matched, AcceptsCall;
    CommittedOk(s);
    LoggedEvent(s, n);
    forall i | 0 <= i < |ds| ensures Recognisable(s.db, ds[i]) {
      assert Honoured(s.db, ds[i]);
      HonouredRepeatable(s.db, ds[i]);
    }
  }

  /** The worker repeats `ds` in its first pass, and read every invocation after its decision was committed. */
  predicate Replaying(s: State, w: nat, ds: seq<Decision>) {
    var wk := WorkerOf(s, w);
    && wk.tx == map[] && wk.made == []
    && match wk.job
       case DecideRead(es, i, pass) => es == ds && i <= |ds| && pass == First
       case DecideLoad(es, i, pass, seen) => es == ds && i < |ds| && pass == First && seen.status != PendingApproval
       case _ => false
  }

  predicate Unrefused(ds: seq<Decision>, owners: map<string, string>) {
    forall i | 0 <= i < |ds| :: Refusal(ds[i].call, owners).None?
  }

  lemma MatchedStatus(k: Key, r: Rows, d: Decision)
    requires RowsOk(k, r) && r.approval.Some? && DecisionMatches(r.approval.value, r.inv, d)
    ensures r.inv.status != PendingApproval && !NeedsPromotion(r.inv) && Settling(r.approval)
  {
    hide Canonical, JsonObject;
  }

  lemma ReadMove(db: Db, w: nat, ds: seq<Decision>, i: nat, owners: map<string, string>, blocked: bool)
    requires DbOk(db) && AllRecognisable(db, ds) && i < |ds| && Unrefused(ds, owners)
    ensures var k := KeyOf(ds[i].call);
      k in db && db[k].inv.status != PendingApproval
      && MoveDecideRead(db, w, Worker(DecideRead(ds, i, First), map[], []), ds, i, First, owners, blocked)
        == Quiet(Worker(DecideLoad(ds, i, First, db[k].inv), map[], []), [])
  {
    hide PayloadMatches, Refusal, DecisionMatches, RowsOk;
    var k := KeyOf(ds[i].call);
    assert Recognisable(db, ds[i]) && RowsOk(k, db[k]) && db + map[] == db;
    MatchedStatus(k, db[k], ds[i]);
  }

  lemma ReplayStep(s: State, w: nat, owners: map<string, string>, ds: seq<Decision>)
    requires Inv(s) && AllRecognisable(s.db, ds) && Replaying(s, w, ds) && Unrefused(ds, owners)
    ensures var t := Apply(s, w, Step(owners));
      || (Replaying(t, w, ds) && t.log == s.log)
      || (WorkerOf(t, w) == Resting && t.log == s.log + [Recorded(ds)])
  {
    hide Inv, JobOk, Blocked, KeyFor, DecisionMatches, PayloadMatches, Unrefused, MoveDecideRead, RowsOk, InvEvolves;
    WorkerJobOk(s, w);
    var wk := WorkerOf(s, w);
    assert s.log + [] == s.log;
    match wk.job
    case DecideRead(es, i, pass) =>
      if i < |ds| {
        ReadMove(s.db, w, ds, i, owners, Blocked(s, w, KeyFor(wk.job)));
      } else {
        LastMove(s.db, w, wk, ds, owners);
      }
    case DecideLoad(es, i, pass, seen) =>
      var k := KeyOf(ds[i].call);
      assert Recognisable(s.db, ds[i]) && RowsOk(k, s.db[k]);
      MatchedStatus(k, s.db[k], ds[i]);
      LoadStep(s, w, owners, ds[i]);
      SeenIff(k, s.db[k], ds[i], seen);
  }

  lemma LastMove(db: Db, w: nat, wk: Worker, ds: seq<Decision>, owners: map<string, string>)
    requires wk.made == []
    ensures forall blocked ::
      MoveDecideRead(db, w, wk, ds, |ds|, First, owners, blocked) == Publish(Idle, [Recorded(ds)])
  {
    assert DecidedEvents([]) + [Recorded(ds)] == [Recorded(ds)];
  }

  /** An event that is not a refusal of worker `w`. */
  predicate NotRefusal(e: Event, w: nat) { e.Refused? ==> e.w != w }

  lemma MoveRefusesItself(db: Db, v: nat, w: nat, wk: Worker, owners: map<string, string>, blocked: bool)
    requires v != w
    ensures match NextMove(db, v, wk, owners, blocked)
      case Wait => true
      case Quiet(_, answers) => forall i | 0 <= i < |answers| :: NotRefusal(answers[i], w)
      case Publish(_, events) => forall i | 0 <= i < |events| :: NotRefusal(events[i], w)
  {
    hide Canonical, JsonObject, DecisionMatches, PayloadMatches, EffectiveMatches, Refusal, InsertInvocation, NewRows;
  }

  /** What another worker does leaves this one where it is, and refuses it nothing. */
  lemma OthersTurn(s: State, v: nat, a: Action, w: nat)
    requires v != w
    ensures var t := Apply(s, v, a);
      && WorkerOf(t, w) == WorkerOf(s, w) && s.log <= t.log
      && forall n | |s.log| <= n < |t.log| :: NotRefusal(t.log[n], w)
  {
    hide NextMove, Blocked, KeyFor;
    if a.Step? { MoveRefusesItself(s.db, v, w, WorkerOf(s, v), a.owners, Blocked(s, v, KeyFor(WorkerOf(s, v).job))); }
  }

  /** Worker `w` only takes steps of its entry point, in a deployment where its calls are not refused outright. */
  predicate OnlySteps(more: seq<Turn>, w: nat, ds: seq<Decision>) {
    forall i | 0 <= i < |more| && more[i].w == w :: more[i].a.Step? && Unrefused(ds, more[i].a.owners)
  }

  /** Where a replay stands: under way, or returned. */
  ghost predicate Replayed(s: State, t: State, w: nat, ds: seq<Decision>) {
    || Replaying(t, w, ds)
    || (WorkerOf(t, w).job == Idle && exists n :: |s.log| <= n < |t.log| && t.log[n] == Recorded(ds))
  }

  lemma RestStep(s: State, w: nat, owners: map<string, string>)
    requires WorkerOf(s, w).job == Idle
    ensures Apply(s, w, Step(owners)) == s
  {
  }

  /** A replay that is under way is never refused, whatever the other workers do. */
  lemma {:induction false} ReplayContinues(sched: seq<Turn>, more: seq<Turn>, w: nat, ds: seq<Decision>)
    requires AllRecognisable(Exec(sched).db, ds) && Replaying(Exec(sched), w, ds) && OnlySteps(more, w, ds)
    ensures var s, t := Exec(sched), Exec(sched + more);
      && Replayed(s, t, w, ds)
      && s.log <= t.log && forall n | |s.log| <= n < |t.log| :: NotRefusal(t.log[n], w)
    decreases |more|
  {
    hide Exec, Inv, Apply, AllRecognisable, Replaying, Unrefused, NotRefusal;
    if more == [] {
      assert sched + more == sched;
    } else {
      var front, last := more[..|more| - 1], more[|more| - 1];
      ReplayContinues(sched, front, w, ds);
      assert sched + more == sched + front + [last];
      ExecSnoc(sched + front, last);
      Reachable(sched);
      Reachable(sched + front);
      assert (sched + front)[..|sched|] == sched;
      Forward(sched + front, |sched|);
      CommittedOk(Exec(sched));
      RecognisableStable(Exec(sched).db, Exec(sched + front).db, ds);
      ReplayTurn(Exec(sched), Exec(sched + front), last, w, ds);
    }
  }

  /** Over all interleavings: a resume that begins after an identical one of settled decisions has returned is
      never refused. At every later point it is under way or has returned too. */
  lemma LaterResumeSucceeds(sched: seq<Turn>, more: seq<Turn>, w: nat, ds: seq<Decision>, n: nat)
    requires n < |Exec(sched).log| && Exec(sched).log[n] == Recorded(ds) && WorkerOf(Exec(sched), w).job == Idle
    requires (forall i | 0 <= i < |ds| :: Repeatable(ds[i])) && OnlySteps(more, w, ds)
    ensures var s, t := Exec(sched), Exec(sched + [Turn(w, BeginDecide(ds))] + more);
      && Replayed(s, t, w, ds)
      && s.log <= t.log && forall n | |s.log| <= n < |t.log| :: NotRefusal(t.log[n], w)
  {
    hide Exec, Inv, AllRecognisable, Unrefused, NotRefusal, Repeatable, OnlySteps;
    var begin := Turn(w, BeginDecide(ds));
    Reachable(sched);
    RecordedIsRecognisable(Exec(sched), n, ds);
    ExecSnoc(sched, begin);
    assert Exec(sched).log + [] == Exec(sched).log;
    ReplayContinues(sched + [begin], more, w, ds);
  }

  lemma CommittedOk(s: State)
    requires Inv(s)
    ensures DbOk(s.db)
  {
  }

  lemma ExecSnoc(sched: seq<Turn>, turn: Turn)
    ensures Exec(sched + [turn]) == Apply(Exec(sched), turn.w, turn.a)
  {
    hide Apply;
    assert (sched + [turn])[..|sched|] == sched;
  }

  lemma ReplayTurn(start: State, s: State, turn: Turn, w: nat, ds: seq<Decision>)
    requires Inv(s) && AllRecognisable(s.db, ds) && Replayed(start, s, w, ds) && OnlySteps([turn], w, ds)
    requires start.log <= s.log && forall n | |start.log| <= n < |s.log| :: NotRefusal(s.log[n], w)
    ensures var t := Apply(s, turn.w, turn.a);
      && Replayed(start, t, w, ds)
      && start.log <= t.log && forall n | |start.log| <= n < |t.log| :: NotRefusal(t.log[n], w)
  {
    hide Inv, Apply, AllRecognisable, Unrefused;
    var t := Apply(s, turn.w, turn.a);
    if turn.w != w {
      OthersTurn(s, turn.w, turn.a, w);
      assert forall n | |start.log| <= n < |s.log| :: t.log[n] == s.log[n];
    } else {
      assert [turn][0].a.Step?;
      if Replaying(s, w, ds) {
        ReplayStep(s, w, turn.a.owners, ds);
        assert t.log == s.log + [Recorded(ds)] ==> t.log[|s.log|] == Recorded(ds);
      } else {
        RestStep(s, w, turn.a.owners);
      }
    }
  }

  // ---- The race ----------------------------------------------------------------------------

  /** The statements of one worker as turns of a schedule. */
  lemma {:induction false} StepsAreTurns(sched: seq<Turn>, w: nat, owners: map<string, string>, n: nat)
    returns (all: seq<Turn>)
    ensures Exec(all) == R.Steps(Exec(sched), w, owners, n)
  {
    hide Exec, Apply;
    if n == 0 {
      all := sched;
    } else {
      var front := StepsAreTurns(sched, w, owners, n - 1);
      all := front + [Turn(w, Step(owners))];
      ExecSnoc(front, Turn(w, Step(owners)));
    }
  }

  lemma {:induction false} OthersSteps(s: State, v: nat, w: nat, owners: map<string, string>, n: nat)
    requires v != w
    ensures WorkerOf(R.Steps(s, v, owners, n), w) == WorkerOf(s, w)
  {
    hide Apply;
    if n > 0 {
      OthersSteps(s, v, w, owners, n - 1);
      OthersTurn(R.Steps(s, v, owners, n - 1), v, Step(owners), w);
    }
  }

  /** Asking for one approval in empty tables, and deciding it, as the sequential loops do. */
  lemma AskedAndDecided(d: Decision, owners: map<string, string>)
    requires StatusFor(d.kind).Some? && Refusal(d.call, owners).None?
    ensures var k := KeyOf(d.call);
      var asked := map[k := WithApproval(NewRows(d.call, true))];
      && Seq.PendAll(map[], owners, [d.call]) == Seq.Ok(asked)
      && Seq.RecordAll(asked, owners, [d]) == Seq.Continue(map[k := Decide(asked[k], d)])
  {
    hide JsonObject, Canonical, Refusal;
    var k := KeyOf(d.call);
    assert [d.call][..0] == [] && [d][..0] == [];
    var asked: Db := map[k := WithApproval(NewRows(d.call, true))];
    var none: Db := map[];
    assert none[k := NewRows(d.call, true)][k := asked[k]] == asked;
    assert Seq.PendOne(none, owners, d.call) == Seq.Ok(asked);
    assert asked[k := Decide(asked[k], d)] == map[k := Decide(asked[k], d)];
  }

  /** The run that refuses a racing identical resume, for every decision: worker 0 reads the invocation, worker 1
      records and commits, worker 0 reads the approval. */
  lemma IdenticalResumeRefused(d: Decision, owners: map<string, string>) returns (sched: seq<Turn>)
    requires StatusFor(d.kind).Some? && Refusal(d.call, owners).None?
    ensures var s := Exec(sched);
      && |s.log| > 0 && s.log[|s.log| - 1] == Refused(0, ApprovalConflict)
      && Recorded([d]) in s.log
      && KeyOf(d.call) in s.db && DecidedBy(s.db[KeyOf(d.call)], d)
  {
    hide Exec, Apply, Inv, R.Steps, Seq.PendAll, Seq.RecordAll, Refusal, DbOk, JsonObject, DecidedBy;
    var k := KeyOf(d.call);
    var rows := WithApproval(NewRows(d.call, true));
    AskedAndDecided(d, owners);
    var asked := AskOnce(d, owners);
    var read := ReadOnce(asked, d, owners);
    var n := RecordMeanwhile(Exec(read), d, owners);
    var begun := read + [Turn(1, BeginDecide([d]))];
    ExecSnoc(read, Turn(1, BeginDecide([d])));
    var decided := StepsAreTurns(begun, 1, owners, n);
    sched := decided + [Turn(0, Step(owners))];
    ExecSnoc(decided, Turn(0, Step(owners)));
    Reachable(decided);
    DecideIsDecidedBy(rows, d);
    LoadStep(Exec(decided), 0, owners, d);
    DecidedIff(k, Exec(decided).db[k], d, WorkerOf(Exec(decided), 0).job.seen);
    assert Exec(sched).log[|Exec(decided).log| - 1] == Recorded([d]);
  }

  lemma DecideIsDecidedBy(r: Rows, d: Decision)
    requires StatusFor(d.kind).Some?
    ensures DecidedBy(Decide(r, d), d) && Settling(Decide(r, d).approval)
  {
  }

  lemma AskOnce(d: Decision, owners: map<string, string>) returns (sched: seq<Turn>)
    requires StatusFor(d.kind).Some? && Refusal(d.call, owners).None?
    ensures var s := Exec(sched);
      s.db == map[KeyOf(d.call) := WithApproval(NewRows(d.call, true))] && s.log == []
      && WorkerOf(s, 0) == Resting && WorkerOf(s, 1) == Resting && R.Alone(s, 0)
  {
    hide R.Steps, Seq.PendAll, Refusal, JsonObject, NewRows, NextMove;
    AskedAndDecided(d, owners);
    assert Exec([]) == Init;
    var n := R.SoloEnsure(Init, 0, owners, [d.call]);
    ExecSnoc([], Turn(0, BeginEnsure([d.call])));
    assert [] + [Turn(0, BeginEnsure([d.call]))] == [Turn(0, BeginEnsure([d.call]))];
    sched := StepsAreTurns([Turn(0, BeginEnsure([d.call]))], 0, owners, n);
    OthersSteps(Apply(Init, 0, BeginEnsure([d.call])), 0, 1, owners, n);
  }

  /** Worker 0 has read the invocation, and the approval is next. */
  predicate ReadBefore(s: State, d: Decision) {
    var k := KeyOf(d.call);
    && s.db == map[k := WithApproval(NewRows(d.call, true))] && s.log == []
    && WorkerOf(s, 0) == Worker(DecideLoad([d], 0, First, s.db[k].inv), map[], [])
    && WorkerOf(s, 1) == Resting && R.Alone(s, 1)
  }

  lemma ReadOnce(asked: seq<Turn>, d: Decision, owners: map<string, string>) returns (sched: seq<Turn>)
    requires Refusal(d.call, owners).None?
    requires var s := Exec(asked);
      s.db == map[KeyOf(d.call) := WithApproval(NewRows(d.call, true))] && s.log == []
      && WorkerOf(s, 0) == Resting && WorkerOf(s, 1) == Resting && R.Alone(s, 0)
    ensures ReadBefore(Exec(sched), d)
  {
    hide Exec;
    var begun := asked + [Turn(0, BeginDecide([d]))];
    ExecSnoc(asked, Turn(0, BeginDecide([d])));
    sched := begun + [Turn(0, Step(owners))];
    ExecSnoc(begun, Turn(0, Step(owners)));
    ReadStep(Exec(asked), d, owners);
  }

  lemma ReadStep(s: State, d: Decision, owners: map<string, string>)
    requires Refusal(d.call, owners).None?
    requires s.db == map[KeyOf(d.call) := WithApproval(NewRows(d.call, true))] && s.log == []
    requires WorkerOf(s, 0) == Resting && WorkerOf(s, 1) == Resting && R.Alone(s, 0)
    ensures ReadBefore(Apply(Apply(s, 0, BeginDecide([d])), 0, Step(owners)), d)
  {
    hide JsonObject, Canonical, Refusal, Blocked;
    var k := KeyOf(d.call);
    var t := Apply(s, 0, BeginDecide([d]));
    assert s.db + map[] == s.db && s.log + [] == s.log;
    R.QuietAlone(t, 0, owners, Worker(DecideLoad([d], 0, First, s.db[k].inv), map[], []), []);
  }

  lemma RecordMeanwhile(s: State, d: Decision, owners: map<string, string>) returns (n: nat)
    requires ReadBefore(s, d) && StatusFor(d.kind).Some? && Refusal(d.call, owners).None?
    ensures var k, t := KeyOf(d.call), R.Steps(Apply(s, 1, BeginDecide([d])), 1, owners, n);
      && t.db == map[k := Decide(WithApproval(NewRows(d.call, true)), d)]
      && WorkerOf(t, 0) == WorkerOf(s, 0) && |t.log| > 0 && t.log[|t.log| - 1] == Recorded([d])
  {
    hide R.Steps, Seq.RecordAll, Seq.PendAll, Refusal, Decide, NextMove, JsonObject;
    AskedAndDecided(d, owners);
    AskedRowsOk(d.call);
    n := R.SoloRecord(s, 1, owners, [d]);
    OthersTurn(s, 1, BeginDecide([d]), 0);
    OthersSteps(Apply(s, 1, BeginDecide([d])), 1, 0, owners, n);
  }

  lemma AskedRowsOk(c: Call)
    ensures DbOk(map[KeyOf(c) := WithApproval(NewRows(c, true))])
  {
  }
}
