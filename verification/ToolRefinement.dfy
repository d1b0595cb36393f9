/** The sequential specification is what the many-worker protocol does when nobody interferes. */
module ToolRefinement {
  import opened Values
  import opened ToolRows
  import opened ToolSystem
  import Seq = ToolStore

  /** `n` statements of worker `w` in a row. */
  function Steps(s: State, w: nat, owners: map<string, string>, n: nat): State {
    if n == 0 then s else Apply(Steps(s, w, owners, n - 1), w, Step(owners))
  }

  lemma {:induction false} StepsCompose(s: State, w: nat, owners: map<string, string>, m: nat, n: nat)
    ensures Steps(Steps(s, w, owners, m), w, owners, n) == Steps(s, w, owners, m + n)
  {
    hide Apply;
    if n > 0 { StepsCompose(s, w, owners, m, n - 1); }
  }

  /** No other worker holds a row. */
  predicate Alone(s: State, w: nat) { forall v | v in s.workers :: v == w || s.workers[v].tx == map[] }

  lemma NeverBlocked(s: State, w: nat, k: Key)
    requires Alone(s, w)
    ensures !Blocked(s, w, k)
  {
  }

  /** One quiet statement of a worker that is alone. */
  lemma QuietAlone(s: State, w: nat, owners: map<string, string>, wk: Worker, answers: seq<Event>)
    requires Alone(s, w) && NextMove(s.db, w, WorkerOf(s, w), owners, false) == Quiet(wk, answers)
    ensures Apply(s, w, Step(owners)) == State(s.db, s.workers[w := wk], s.log + answers)
    ensures Alone(Apply(s, w, Step(owners)), w) && WorkerOf(Apply(s, w, Step(owners)), w) == wk
  {
    hide NextMove, Blocked;
    NeverBlocked(s, w, KeyFor(WorkerOf(s, w).job));
  }

  lemma PublishAlone(s: State, w: nat, owners: map<string, string>, job: Job, events: seq<Event>)
    requires Alone(s, w) && NextMove(s.db, w, WorkerOf(s, w), owners, false) == Publish(job, events)
    ensures Apply(s, w, Step(owners))
      == State(s.db + WorkerOf(s, w).tx, s.workers[w := Worker(job, map[], [])], s.log + events)
    ensures Alone(Apply(s, w, Step(owners)), w)
  {
    hide NextMove, Blocked;
    NeverBlocked(s, w, KeyFor(WorkerOf(s, w).job));
  }

  /** A worker at rest, and one that waits for its handler, take no step. */
  lemma {:induction false} RestingStays(s: State, w: nat, owners: map<string, string>, n: nat)
    requires WorkerOf(s, w).job.Idle? || WorkerOf(s, w).job.Executing?
    ensures Steps(s, w, owners, n) == s
  {
    if n > 0 {
      RestingStays(s, w, owners, n - 1);
      assert NextMove(s.db, w, WorkerOf(s, w), owners, Blocked(s, w, KeyFor(WorkerOf(s, w).job))) == Wait;
    }
  }

  /** What the log and the tables show of one claim. */
  predicate ClaimShows(before: State, after: State, w: nat, owners: map<string, string>, c: Call) {
    match Seq.Claimed(before.db, owners, c)
    case Err(e) => after.db == before.db && after.log == before.log + [Refused(w, e)]
    case Ok(pair) =>
      && after.db == pair.0
      && var answer := if pair.1.shouldExecute then HandedOut(KeyOf(c), c) else Replied(KeyOf(c), pair.1.status);
         after.log == before.log + [answer]
  }

  /** Without interference a claim does exactly what the sequential one does. */
  lemma SoloClaim(s: State, w: nat, owners: map<string, string>, c: Call)
    requires DbOk(s.db) && Alone(s, w) && WorkerOf(s, w) == Resting
    ensures ClaimShows(s, Steps(Apply(s, w, BeginClaim(c)), w, owners, 3), w, owners, c)
  {
    hide NextMove, Ready, Seq.Claimed, DbOk, Blocked;
    var s0 := Apply(s, w, BeginClaim(c));
    assert WorkerOf(s0, w) == Worker(ClaimRead(c), map[], []) && Alone(s0, w);
    assert s0.db == s.db && s0.log == s.log + [] == s.log;
    SoloClaimFrom(s0, w, owners, c);
  }

  lemma SoloClaimFrom(s: State, w: nat, owners: map<string, string>, c: Call)
    requires DbOk(s.db) && Alone(s, w) && WorkerOf(s, w) == Worker(ClaimRead(c), map[], [])
    ensures ClaimShows(s, Steps(s, w, owners, 3), w, owners, c)
  {
    hide Apply, Ready, Reporting, ClaimShows, DbOk, Alone;
    ClaimFirstStep(s, w, owners, c);
    OneStep(s, w, owners);
    StepsCompose(s, w, owners, 1, 2);
    var t := Apply(s, w, Step(owners));
    if WorkerOf(t, w).job.ClaimCas? {
      ClaimSecondStep(s, t, w, owners, c);
    } else if WorkerOf(t, w).job.ClaimReread? {
      ReportStep(s, t, w, owners, c);
    } else {
      RestingStays(t, w, owners, 2);
    }
  }

  lemma OneStep(s: State, w: nat, owners: map<string, string>)
    ensures Steps(s, w, owners, 1) == Apply(s, w, Step(owners))
  {
    hide Apply;
    assert Steps(s, w, owners, 0) == s;
  }

  /** The private rows `tx` show `c` in its expected status, and starting it is all that is left. */
  predicate Startable(db: Db, tx: Db, owners: map<string, string>, c: Call, expected: InvocationStatus) {
    var k, view := KeyOf(c), db + tx;
    && k in view && view[k].inv.status == expected && (forall q | q in tx :: q == k)
    && var claimed := Seq.Claimed(db, owners, c);
       claimed.Ok? && claimed.value.1.shouldExecute && claimed.value.0 == view[k := StartRunning(view[k])]
  }

  /** The claim is answered from the stored row. */
  predicate Reported(db: Db, owners: map<string, string>, c: Call) {
    && Seq.Claimed(db, owners, c).Ok? && KeyOf(c) in db
    && var (v, claim) := Seq.Claimed(db, owners, c).value;
       v == db && !claim.shouldExecute && claim.status == db[KeyOf(c)].inv.status
  }

  /** The snapshot either answers as the sequential claim does, or leaves a startable row. */
  lemma SnapshotAgrees(db: Db, w: nat, owners: map<string, string>, c: Call)
    requires DbOk(db)
    ensures match MoveClaimRead(db, w, Worker(ClaimRead(c), map[], []), c, owners, false)
      case Wait => false
      case Quiet(wk, answers) =>
        if wk.job.ClaimCas? then
          answers == [] && wk.made == [] && wk.job.c == c && Startable(db, wk.tx, owners, c, wk.job.expected)
        else wk.job == Idle && exists e :: answers == [Refused(w, e)] && Seq.Claimed(db, owners, c) == Seq.Err(e)
      case Publish(job, events) => job == ClaimReread(c) && events == [] && Reported(db, owners, c)
  {
    hide Canonical, JsonObject, Refusal, PayloadMatches, EffectiveMatches;
    assert db + map[] == db;
    if KeyOf(c) in db { assert RowsOk(KeyOf(c), db[KeyOf(c)]); }
  }

  /** The snapshot: it is refused, goes on to report the row, or to the guarded update. */
  lemma ClaimFirstStep(s: State, w: nat, owners: map<string, string>, c: Call)
    requires DbOk(s.db) && Alone(s, w) && WorkerOf(s, w) == Worker(ClaimRead(c), map[], [])
    ensures var t := Apply(s, w, Step(owners));
      match WorkerOf(t, w).job
      case ClaimCas(_, _) => Ready(s, t, w, owners, c)
      case ClaimReread(_) => Reporting(s, t, w, owners, c)
      case j => j.Idle? && ClaimShows(s, t, w, owners, c)
  {
    hide MoveClaimRead, Seq.Claimed, Startable, Reported, DbOk, Blocked, Apply;
    SnapshotAgrees(s.db, w, owners, c);
    assert s.db + map[] == s.db && s.log + [] == s.log;
    match MoveClaimRead(s.db, w, WorkerOf(s, w), c, owners, false)
    case Quiet(wk, answers) => QuietAlone(s, w, owners, wk, answers);
    case Publish(job, events) => PublishAlone(s, w, owners, job, events);
  }

  predicate Reporting(before: State, t: State, w: nat, owners: map<string, string>, c: Call) {
    && Alone(t, w) && t.db == before.db && t.log == before.log
    && WorkerOf(t, w).job == ClaimReread(c) && Reported(t.db, owners, c)
  }

  lemma ReportStep(before: State, s: State, w: nat, owners: map<string, string>, c: Call)
    requires Reporting(before, s, w, owners, c)
    ensures ClaimShows(before, Steps(s, w, owners, 2), w, owners, c)
  {
    hide Seq.Claimed, Blocked;
    QuietAlone(s, w, owners, Resting, [Replied(KeyOf(c), s.db[KeyOf(c)].inv.status)]);
    OneStep(s, w, owners);
    var t := Apply(s, w, Step(owners));
    StepsCompose(s, w, owners, 1, 1);
    RestingStays(t, w, owners, 1);
  }

  /** The claim is about to move the row it will be handed out with. */
  predicate Ready(before: State, t: State, w: nat, owners: map<string, string>, c: Call) {
    && Alone(t, w) && t.db == before.db && t.log == before.log
    && var wk := WorkerOf(t, w);
       wk.job.ClaimCas? && wk.job.c == c && wk.made == [] && Startable(t.db, wk.tx, owners, c, wk.job.expected)
  }

  lemma ClaimSecondStep(before: State, s: State, w: nat, owners: map<string, string>, c: Call)
    requires Ready(before, s, w, owners, c)
    ensures ClaimShows(before, Steps(s, w, owners, 2), w, owners, c)
  {
    hide Seq.Claimed, StartRunning, Blocked;
    var wk, k := WorkerOf(s, w), KeyOf(c);
    var view := s.db + wk.tx;
    var next := Worker(ClaimCommit(c), wk.tx[k := StartRunning(view[k])], []);
    QuietAlone(s, w, owners, next, []);
    var t := Apply(s, w, Step(owners));
    PublishAlone(t, w, owners, Executing(c), [HandedOut(k, c)]);
    assert s.db + next.tx == view[k := StartRunning(view[k])];
    OneStep(s, w, owners);
    assert s.log + [] == s.log;
  }

  // ---- record_approval_decisions -----------------------------------------------------------

  /** The sequential turn and loop of either pass. */
  function Turn(pass: Pass, view: Db, owners: map<string, string>, d: Decision): Seq.Progress {
    match pass
    case First => Seq.RecordOne(view, owners, d)
    case Recheck => AsProgress(Seq.CheckOne(view, owners, d))
  }

  function Turns(pass: Pass, db: Db, owners: map<string, string>, ds: seq<Decision>): Seq.Progress {
    match pass
    case First => Seq.RecordAll(db, owners, ds)
    case Recheck => AsProgress(Seq.CheckAll(db, owners, ds))
  }

  function AsProgress(o: Seq.Outcome<Db>): Seq.Progress {
    match o
    case Ok(v) => Seq.Continue(v)
    case Err(e) => Seq.Stop(e)
  }

  lemma TurnsNext(pass: Pass, db: Db, owners: map<string, string>, ds: seq<Decision>, i: nat)
    requires i < |ds|
    ensures var p := Turns(pass, db, owners, ds[..i]);
      Turns(pass, db, owners, ds[..i + 1]) == if p.Continue? then Turn(pass, p.view, owners, ds[i]) else p
  {
    hide Seq.RecordOne, Seq.CheckOne;
    assert ds[..i + 1][..i] == ds[..i];
  }

  lemma TurnOk(pass: Pass, view: Db, owners: map<string, string>, d: Decision)
    requires DbOk(view) && Turn(pass, view, owners, d).Continue?
    ensures DbOk(Turn(pass, view, owners, d).view)
  {
    hide Seq.RecordOne, Seq.CheckOne, DbOk;
    match pass
    case First => Seq.RecordOneOk(view, owners, d);
    case Recheck => Seq.CheckOneOk(view, owners, d);
  }

  /** The worker is at decision `i`, and its transaction shows `view`. */
  predicate AtDecision(db: Db, log: seq<Event>, t: State, w: nat, ds: seq<Decision>, pass: Pass, i: nat, view: Db) {
    && Alone(t, w) && t.db == db && t.log == log
    && WorkerOf(t, w).job == DecideRead(ds, i, pass) && db + WorkerOf(t, w).tx == view
  }

  predicate WasRefused(db: Db, log: seq<Event>, t: State, w: nat, e: Error) {
    t.db == db && t.log == log + [Refused(w, e)] && WorkerOf(t, w) == Resting && Alone(t, w)
  }

  predicate Rechecks(db: Db, log: seq<Event>, t: State, w: nat, ds: seq<Decision>) {
    t.db == db && t.log == log && WorkerOf(t, w) == Worker(DecideRead(ds, 0, Recheck), map[], []) && Alone(t, w)
  }

  /** The machine stands where the sequential loop stands after `i` decisions. */
  predicate Follows(db: Db, log: seq<Event>, t: State, w: nat, ds: seq<Decision>, pass: Pass, i: nat, p: Seq.Progress) {
    match p
    case Continue(v) => AtDecision(db, log, t, w, ds, pass, i, v)
    case Stop(e) => WasRefused(db, log, t, w, e)
    case Race => Rechecks(db, log, t, w, ds)
  }

  /** The approval of decision `i` is about to be read, after the invocation in `view`. */
  predicate Loaded(db: Db, log: seq<Event>, s: State, w: nat, ds: seq<Decision>, pass: Pass, i: nat, view: Db) {
    && Alone(s, w) && i < |ds| && s.db == db && s.log == log && db + WorkerOf(s, w).tx == view
    && KeyOf(ds[i].call) in view
    && WorkerOf(s, w).job == DecideLoad(ds, i, pass, view[KeyOf(ds[i].call)].inv)
  }

  /** The rows a worker has written once `_ensure_invocation` went through. */
  function WithRow(db: Db, tx: Db, c: Call): Db { if KeyOf(c) in db + tx then tx else tx[KeyOf(c) := NewRows(c, true)] }

  lemma RowsAfterEnsure(db: Db, tx: Db, owners: map<string, string>, c: Call)
    requires DbOk(db + tx) && Seq.Ensured(db + tx, owners, c, true, false).Ok?
    ensures var v := Seq.Ensured(db + tx, owners, c, true, false).value;
      && v == db + WithRow(db, tx, c) && KeyOf(c) in v && v[KeyOf(c)] == InsertInvocation(db + tx, c, true)[KeyOf(c)]
      && !NeedsPromotion(v[KeyOf(c)].inv)
  {
    hide Canonical, JsonObject, Refusal, PayloadMatches;
    if KeyOf(c) in db + tx { assert RowsOk(KeyOf(c), (db + tx)[KeyOf(c)]); }
  }

  lemma ReadMove(db: Db, w: nat, wk: Worker, ds: seq<Decision>, i: nat, pass: Pass, owners: map<string, string>)
    requires DbOk(db + wk.tx) && i < |ds|
    ensures var c := ds[i].call;
      MoveDecideRead(db, w, wk, ds, i, pass, owners, false)
        == match Seq.Ensured(db + wk.tx, owners, c, true, false)
           case Err(e) => Refuse(w, e)
           case Ok(v) => Quiet(Worker(DecideLoad(ds, i, pass, v[KeyOf(c)].inv), WithRow(db, wk.tx, c), wk.made), [])
  {
    hide PayloadMatches, Refusal, NewInvocation, DbOk;
    var c := ds[i].call;
    if Seq.Ensured(db + wk.tx, owners, c, true, false).Ok? { RowsAfterEnsure(db, wk.tx, owners, c); }
  }

  /** The first statement of a turn: `_ensure_invocation`. */
  lemma ReadStatement(
    db: Db, log: seq<Event>, s: State, w: nat, owners: map<string, string>, ds: seq<Decision>, pass: Pass, i: nat,
    view: Db)
    requires AtDecision(db, log, s, w, ds, pass, i, view) && i < |ds| && DbOk(view)
    ensures match Seq.Ensured(view, owners, ds[i].call, true, false)
      case Err(e) => WasRefused(db, log, Apply(s, w, Step(owners)), w, e)
      case Ok(v) => Loaded(db, log, Apply(s, w, Step(owners)), w, ds, pass, i, v)
  {
    hide MoveDecideRead, Seq.Ensured, WithRow, Apply, Blocked, DbOk;
    var wk, c := WorkerOf(s, w), ds[i].call;
    ReadMove(db, w, wk, ds, i, pass, owners);
    assert log + [] == log;
    match Seq.Ensured(view, owners, c, true, false)
    case Err(e) => QuietAlone(s, w, owners, Resting, [Refused(w, e)]);
    case Ok(v) =>
      RowsAfterEnsure(db, wk.tx, owners, c);
      QuietAlone(s, w, owners, Worker(DecideLoad(ds, i, pass, v[KeyOf(c)].inv), WithRow(db, wk.tx, c), wk.made), []);
  }

  /** What the rest of a turn makes of the rows `v` its first statement found. */
  function Judged(pass: Pass, v: Db, d: Decision): Seq.Progress
    requires KeyOf(d.call) in v
  {
    var r := v[KeyOf(d.call)];
    if r.approval.None? then Seq.Stop(ApprovalConflict)
    else if pass == Recheck || r.approval.value.status != Awaiting then
      if DecisionMatches(r.approval.value, r.inv, d) then Seq.Continue(v) else Seq.Stop(ApprovalConflict)
    else if StatusFor(d.kind).None? then Seq.Stop(ApprovalConflict)
    else if Decidable(r) then Seq.Continue(v[KeyOf(d.call) := Decide(r, d)])
    else Seq.Race
  }

  lemma TurnIsJudged(pass: Pass, view: Db, owners: map<string, string>, d: Decision)
    ensures match Seq.Ensured(view, owners, d.call, true, false)
      case Err(e) => Turn(pass, view, owners, d) == Seq.Stop(e)
      case Ok(v) => KeyOf(d.call) in v && Turn(pass, view, owners, d) == Judged(pass, v, d)
  {
    hide Canonical, JsonObject, Refusal, PayloadMatches, DecisionMatches;
  }

  /** The other statements of a turn: a comparison, or the two guarded updates. */
  lemma LoadStatements(
    db: Db, log: seq<Event>, s: State, w: nat, owners: map<string, string>, ds: seq<Decision>, pass: Pass, i: nat,
    v: Db)
    returns (n: nat)
    requires Loaded(db, log, s, w, ds, pass, i, v)
    ensures Follows(db, log, Steps(s, w, owners, n), w, ds, pass, i + 1, Judged(pass, v, ds[i]))
  {
    hide Canonical, JsonObject, DecisionMatches, Decide, Apply, Blocked;
    var wk, d := WorkerOf(s, w), ds[i];
    var r := v[KeyOf(d.call)];
    OneStep(s, w, owners);
    n := 1;
    assert log + [] == log;
    if r.approval.Some? && pass == First && r.approval.value.status == Awaiting && StatusFor(d.kind).Some? {
      QuietAlone(s, w, owners, Worker(DecideCas(ds, i), wk.tx, wk.made), []);
      var t := Apply(s, w, Step(owners));
      CasStatement(db, log, t, w, owners, ds, i, v);
      assert Steps(s, w, owners, 2) == Apply(t, w, Step(owners));
      n := 2;
    } else if r.approval.Some? && (pass == Recheck || r.approval.value.status != Awaiting)
      && DecisionMatches(r.approval.value, r.inv, d) {
      QuietAlone(s, w, owners, Worker(DecideRead(ds, i + 1, pass), wk.tx, wk.made), []);
    } else {
      QuietAlone(s, w, owners, Resting, [Refused(w, ApprovalConflict)]);
    }
  }

  lemma CasStatement(
    db: Db, log: seq<Event>, s: State, w: nat, owners: map<string, string>, ds: seq<Decision>, i: nat, v: Db)
    requires Alone(s, w) && i < |ds| && s.db == db && s.log == log && db + WorkerOf(s, w).tx == v
    requires KeyOf(ds[i].call) in v && WorkerOf(s, w).job == DecideCas(ds, i)
    requires v[KeyOf(ds[i].call)].approval.Some? && v[KeyOf(ds[i].call)].approval.value.status == Awaiting
    requires StatusFor(ds[i].kind).Some?
    ensures Follows(db, log, Apply(s, w, Step(owners)), w, ds, First, i + 1, Judged(First, v, ds[i]))
  {
    hide Canonical, JsonObject, DecisionMatches, Decide, Apply, Blocked;
    var wk, d := WorkerOf(s, w), ds[i];
    var k := KeyOf(d.call);
    assert log + [] == log;
    if Decidable(v[k]) {
      var tx := wk.tx[k := Decide(v[k], d)];
      QuietAlone(s, w, owners, Worker(DecideRead(ds, i + 1, First), tx, wk.made + [d]), []);
      assert db + tx == v[k := Decide(v[k], d)];
    } else {
      QuietAlone(s, w, owners, Worker(DecideRead(ds, 0, Recheck), map[], []), []);
    }
  }

  /** One whole turn. */
  lemma WholeTurn(
    db: Db, log: seq<Event>, s: State, w: nat, owners: map<string, string>, ds: seq<Decision>, pass: Pass, i: nat,
    view: Db)
    returns (n: nat)
    requires AtDecision(db, log, s, w, ds, pass, i, view) && i < |ds| && DbOk(view)
    ensures Follows(db, log, Steps(s, w, owners, n), w, ds, pass, i + 1, Turn(pass, view, owners, ds[i]))
  {
    hide Apply, Steps, AtDecision, Loaded, WasRefused, Turn, Judged, Seq.Ensured, DbOk;
    ReadStatement(db, log, s, w, owners, ds, pass, i, view);
    TurnIsJudged(pass, view, owners, ds[i]);
    OneStep(s, w, owners);
    n := 1;
    match Seq.Ensured(view, owners, ds[i].call, true, false)
    case Err(e) =>
    case Ok(v) =>
      var m := LoadStatements(db, log, Apply(s, w, Step(owners)), w, owners, ds, pass, i, v);
      StepsCompose(s, w, owners, 1, m);
      n := 1 + m;
  }

  lemma NoStep(s: State, w: nat, owners: map<string, string>)
    ensures Steps(s, w, owners, 0) == s
  {
  }

  lemma NoTurns(pass: Pass, db: Db, owners: map<string, string>, ds: seq<Decision>)
    ensures Turns(pass, db, owners, ds[..0]) == Seq.Continue(db)
  {
    hide Seq.RecordOne, Seq.CheckOne;
    assert ds[..0] == [];
  }

  /** The first `i` turns: also where the loop stopped before them. */
  lemma {:induction false} FirstTurns(
    db: Db, log: seq<Event>, s: State, w: nat, owners: map<string, string>, ds: seq<Decision>, pass: Pass, i: nat)
    returns (n: nat)
    requires DbOk(db) && AtDecision(db, log, s, w, ds, pass, 0, db) && i <= |ds|
    ensures var p := Turns(pass, db, owners, ds[..i]);
      Follows(db, log, Steps(s, w, owners, n), w, ds, pass, i, p) && (p.Continue? ==> DbOk(p.view))
  {
    hide Apply, Steps, AtDecision, WasRefused, Rechecks, Turn, Turns, DbOk;
    if i == 0 {
      n := 0;
      NoStep(s, w, owners);
      assert Turns(pass, db, owners, ds[..0]) == Seq.Continue(db) by { NoTurns(pass, db, owners, ds); }
    } else {
      n := FirstTurns(db, log, s, w, owners, ds, pass, i - 1);
      TurnsNext(pass, db, owners, ds, i - 1);
      var p := Turns(pass, db, owners, ds[..i - 1]);
      if p.Continue? {
        var t := Steps(s, w, owners, n);
        var m := WholeTurn(db, log, t, w, owners, ds, pass, i - 1, p.view);
        StepsCompose(s, w, owners, n, m);
        if Turn(pass, p.view, owners, ds[i - 1]).Continue? { TurnOk(pass, p.view, owners, ds[i - 1]); }
        n := n + m;
      }
    }
  }

  /** One pass, to its commit, its refusal or its restart. */
  lemma OnePass(db: Db, log: seq<Event>, s: State, w: nat, owners: map<string, string>, ds: seq<Decision>, pass: Pass)
    returns (n: nat)
    requires DbOk(db) && AtDecision(db, log, s, w, ds, pass, 0, db)
    ensures var t := Steps(s, w, owners, n);
      match Turns(pass, db, owners, ds)
      case Continue(v) => Recorded(db, log, t, ds, v)
      case Stop(e) => WasRefused(db, log, t, w, e)
      case Race => Rechecks(db, log, t, w, ds)
  {
    hide Apply, Steps, AtDecision, WasRefused, Rechecks, Turns, DbOk, Recorded;
    n := FirstTurns(db, log, s, w, owners, ds, pass, |ds|);
    assert ds[..|ds|] == ds;
    var p := Turns(pass, db, owners, ds);
    if p.Continue? {
      var t := Steps(s, w, owners, n);
      BatchEnds(db, log, t, w, owners, ds, pass, p.view);
      OneStep(t, w, owners);
      StepsCompose(s, w, owners, n, 1);
      n := n + 1;
    }
  }

  /** The batch was committed with the rows `v`, and the entry point returned. */
  predicate Recorded(db: Db, log: seq<Event>, t: State, ds: seq<Decision>, v: Db) {
    t.db == v && log < t.log && t.log[|t.log| - 1] == Event.Recorded(ds)
  }

  lemma BatchEnds(
    db: Db, log: seq<Event>, s: State, w: nat, owners: map<string, string>, ds: seq<Decision>, pass: Pass, v: Db)
    requires AtDecision(db, log, s, w, ds, pass, |ds|, v)
    ensures Recorded(db, log, Apply(s, w, Step(owners)), ds, v)
  {
    var events := DecidedEvents(WorkerOf(s, w).made) + [Event.Recorded(ds)];
    PublishAlone(s, w, owners, Idle, events);
    assert (log + events)[|log + events| - 1] == Event.Recorded(ds);
  }

  lemma BatchBegins(s: State, w: nat, ds: seq<Decision>)
    requires Alone(s, w) && WorkerOf(s, w) == Resting
    ensures AtDecision(s.db, s.log, Apply(s, w, BeginDecide(ds)), w, ds, First, 0, s.db)
  {
    assert s.db + map[] == s.db && s.log + [] == s.log;
  }

  /** Without interference the machine records, refuses or rechecks a batch exactly as the sequential loops do. */
  lemma SoloRecord(s: State, w: nat, owners: map<string, string>, ds: seq<Decision>) returns (n: nat)
    requires DbOk(s.db) && Alone(s, w) && WorkerOf(s, w) == Resting
    ensures var t := Steps(Apply(s, w, BeginDecide(ds)), w, owners, n);
      match Seq.RecordAll(s.db, owners, ds)
      case Continue(v) => Recorded(s.db, s.log, t, ds, v)
      case Stop(e) => WasRefused(s.db, s.log, t, w, e)
      case Race =>
        match Seq.CheckAll(s.db, owners, ds)
        case Ok(v) => Recorded(s.db, s.log, t, ds, s.db)
        case Err(e) => WasRefused(s.db, s.log, t, w, e)
  {
    hide Apply, Steps, AtDecision, WasRefused, DbOk, Recorded, Seq.RecordAll, Seq.CheckAll;
    var s0 := Apply(s, w, BeginDecide(ds));
    BatchBegins(s, w, ds);
    n := OnePass(s.db, s.log, s0, w, owners, ds, First);
    if Seq.RecordAll(s.db, owners, ds).Race? {
      var t := Steps(s0, w, owners, n);
      RecheckBegins(s.db, s.log, t, w, ds);
      var m := OnePass(s.db, s.log, t, w, owners, ds, Recheck);
      if Seq.CheckAll(s.db, owners, ds).Ok? { Seq.CheckAllOk(s.db, owners, ds); }
      StepsCompose(s0, w, owners, n, m);
      n := n + m;
    }
  }

  lemma RecheckBegins(db: Db, log: seq<Event>, t: State, w: nat, ds: seq<Decision>)
    requires Rechecks(db, log, t, w, ds)
    ensures AtDecision(db, log, t, w, ds, Recheck, 0, db)
  {
    assert db + map[] == db;
  }

  // ---- ensure_pending_approvals ------------------------------------------------------------

  /** The worker has asked for all calls before `rest`. */
  predicate AtCall(db: Db, log: seq<Event>, t: State, w: nat, rest: seq<Call>, view: Db) {
    && Alone(t, w) && t.db == db && t.log == log
    && WorkerOf(t, w).job == EnsureRead(rest) && db + WorkerOf(t, w).tx == view
  }

  predicate AsksFor(db: Db, log: seq<Event>, t: State, w: nat, rest: seq<Call>, view: Db) {
    && Alone(t, w) && t.db == db && t.log == log && rest != [] && KeyOf(rest[0]) in view
    && WorkerOf(t, w).job == EnsureApproval(rest) && db + WorkerOf(t, w).tx == view
  }

  lemma AskMove(db: Db, w: nat, wk: Worker, rest: seq<Call>, owners: map<string, string>)
    requires DbOk(db + wk.tx) && rest != []
    ensures MoveEnsureRead(db, w, wk, rest, owners, false)
      == match Seq.Ensured(db + wk.tx, owners, rest[0], true, false)
         case Err(e) => Refuse(w, e)
         case Ok(v) => Quiet(Worker(EnsureApproval(rest), WithRow(db, wk.tx, rest[0]), []), [])
  {
    hide PayloadMatches, Refusal, NewInvocation, DbOk;
    if Seq.Ensured(db + wk.tx, owners, rest[0], true, false).Ok? { RowsAfterEnsure(db, wk.tx, owners, rest[0]); }
  }

  lemma AskFirst(db: Db, log: seq<Event>, s: State, w: nat, owners: map<string, string>, rest: seq<Call>, view: Db)
    requires AtCall(db, log, s, w, rest, view) && rest != [] && DbOk(view)
    ensures match Seq.Ensured(view, owners, rest[0], true, false)
      case Err(e) => WasRefused(db, log, Apply(s, w, Step(owners)), w, e)
      case Ok(v) => AsksFor(db, log, Apply(s, w, Step(owners)), w, rest, v)
  {
    hide MoveEnsureRead, Seq.Ensured, WithRow, Apply, Blocked, DbOk;
    var wk := WorkerOf(s, w);
    AskMove(db, w, wk, rest, owners);
    assert log + [] == log;
    match Seq.Ensured(view, owners, rest[0], true, false)
    case Err(e) => QuietAlone(s, w, owners, Resting, [Refused(w, e)]);
    case Ok(v) =>
      RowsAfterEnsure(db, wk.tx, owners, rest[0]);
      QuietAlone(s, w, owners, Worker(EnsureApproval(rest), WithRow(db, wk.tx, rest[0]), []), []);
  }

  lemma AskThen(db: Db, log: seq<Event>, s: State, w: nat, owners: map<string, string>, rest: seq<Call>, v: Db)
    requires AsksFor(db, log, s, w, rest, v)
    ensures var k := KeyOf(rest[0]);
      AtCall(db, log, Apply(s, w, Step(owners)), w, rest[1..], v[k := WithApproval(v[k])])
  {
    hide Apply, Blocked;
    var wk, k := WorkerOf(s, w), KeyOf(rest[0]);
    assert log + [] == log;
    if v[k].approval.Some? {
      assert v[k := v[k]] == v;
      QuietAlone(s, w, owners, Worker(EnsureRead(rest[1..]), wk.tx, []), []);
    } else {
      var tx := wk.tx[k := WithApproval(v[k])];
      assert db + tx == v[k := WithApproval(v[k])];
      QuietAlone(s, w, owners, Worker(EnsureRead(rest[1..]), tx, []), []);
    }
  }

  /** Both statements for one call. */
  lemma AskOne(db: Db, log: seq<Event>, s: State, w: nat, owners: map<string, string>, rest: seq<Call>, view: Db)
    returns (n: nat)
    requires AtCall(db, log, s, w, rest, view) && rest != [] && DbOk(view)
    ensures match Seq.PendOne(view, owners, rest[0])
      case Err(e) => WasRefused(db, log, Steps(s, w, owners, n), w, e)
      case Ok(v) => AtCall(db, log, Steps(s, w, owners, n), w, rest[1..], v)
  {
    hide Apply, Steps, AtCall, AsksFor, WasRefused, Seq.Ensured, DbOk;
    AskFirst(db, log, s, w, owners, rest, view);
    OneStep(s, w, owners);
    n := 1;
    match Seq.Ensured(view, owners, rest[0], true, false)
    case Err(e) =>
    case Ok(v) =>
      var t := Apply(s, w, Step(owners));
      AsksForKey(db, log, t, w, rest, v);
      AskThen(db, log, t, w, owners, rest, v);
      OneStep(t, w, owners);
      StepsCompose(s, w, owners, 1, 1);
      n := 2;
  }

  lemma AsksForKey(db: Db, log: seq<Event>, t: State, w: nat, rest: seq<Call>, v: Db)
    requires AsksFor(db, log, t, w, rest, v)
    ensures rest != [] && KeyOf(rest[0]) in v
  {
  }

  lemma {:induction false} AskSome(
    db: Db, log: seq<Event>, s: State, w: nat, owners: map<string, string>, calls: seq<Call>, i: nat)
    returns (n: nat)
    requires DbOk(db) && AtCall(db, log, s, w, calls, db) && i <= |calls|
    ensures match Seq.PendAll(db, owners, calls[..i])
      case Err(e) => WasRefused(db, log, Steps(s, w, owners, n), w, e)
      case Ok(v) => DbOk(v) && AtCall(db, log, Steps(s, w, owners, n), w, calls[i..], v)
  {
    hide Apply, AtCall, WasRefused, Seq.PendOne, DbOk;
    if i == 0 {
      n := 0;
      assert calls[0..] == calls;
    } else {
      n := AskSome(db, log, s, w, owners, calls, i - 1);
      assert calls[..i][..i - 1] == calls[..i - 1];
      var p := Seq.PendAll(db, owners, calls[..i - 1]);
      if p.Ok? {
        var t := Steps(s, w, owners, n);
        assert calls[i - 1..][0] == calls[i - 1] && calls[i - 1..][1..] == calls[i..];
        var m := AskOne(db, log, t, w, owners, calls[i - 1..], p.value);
        if Seq.PendOne(p.value, owners, calls[i - 1]).Ok? { Seq.PendOneOk(p.value, owners, calls[i - 1]); }
        StepsCompose(s, w, owners, n, m);
        n := n + m;
      }
    }
  }

  lemma AskingBegins(s: State, w: nat, calls: seq<Call>)
    requires Alone(s, w) && WorkerOf(s, w) == Resting
    ensures AtCall(s.db, s.log, Apply(s, w, BeginEnsure(calls)), w, calls, s.db)
  {
    assert s.db + map[] == s.db && s.log + [] == s.log;
  }

  lemma AskingEnds(db: Db, log: seq<Event>, s: State, w: nat, owners: map<string, string>, v: Db)
    requires AtCall(db, log, s, w, [], v)
    ensures var t := Apply(s, w, Step(owners));
      t.db == v && t.log == log && WorkerOf(t, w) == Resting && Alone(t, w)
  {
    PublishAlone(s, w, owners, Idle, []);
    assert log + [] == log;
  }

  /** Without interference the machine asks for approvals, or refuses to, exactly as the sequential loop does. */
  lemma SoloEnsure(s: State, w: nat, owners: map<string, string>, calls: seq<Call>) returns (n: nat)
    requires DbOk(s.db) && Alone(s, w) && WorkerOf(s, w) == Resting
    ensures var t := Steps(Apply(s, w, BeginEnsure(calls)), w, owners, n);
      match Seq.PendAll(s.db, owners, calls)
      case Ok(v) => t.db == v && t.log == s.log && WorkerOf(t, w) == Resting && Alone(t, w)
      case Err(e) => WasRefused(s.db, s.log, t, w, e)
  {
    hide Apply, Steps, AtCall, WasRefused, DbOk, Seq.PendAll;
    var s0 := Apply(s, w, BeginEnsure(calls));
    AskingBegins(s, w, calls);
    n := AskSome(s.db, s.log, s0, w, owners, calls, |calls|);
    assert calls[..|calls|] == calls && calls[|calls|..] == [];
    if Seq.PendAll(s.db, owners, calls).Ok? {
      var t := Steps(s0, w, owners, n);
      AskingEnds(s.db, s.log, t, w, owners, Seq.PendAll(s.db, owners, calls).value);
      OneStep(t, w, owners);
      StepsCompose(s0, w, owners, n, 1);
      n := n + 1;
    }
  }
}
