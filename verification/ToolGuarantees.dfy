/** What the protocol guarantees over every run: any workers, any calls, any interleaving, any crash. */
module ToolGuarantees {
  import opened Values
  import opened ToolRows
  import opened ToolSystem

  datatype Turn = Turn(w: nat, a: Action)

  /** The state after a schedule of turns, from empty tables. */
  function Exec(sched: seq<Turn>): State
    decreases |sched|
  {
    if sched == [] then Init
    else Apply(Exec(sched[..|sched| - 1]), sched[|sched| - 1].w, sched[|sched| - 1].a)
  }

  lemma {:induction false} Reachable(sched: seq<Turn>)
    ensures Inv(Exec(sched))
    decreases |sched|
  {
    if sched != [] {
      Reachable(sched[..|sched| - 1]);
      ApplyKeeps(Exec(sched[..|sched| - 1]), sched[|sched| - 1].w, sched[|sched| - 1].a);
    }
  }

  lemma LogOnlyGrows(s: State, w: nat, a: Action)
    ensures s.log <= Apply(s, w, a).log
  {
  }

  /** Between any two points of a run, committed rows only move forward and the log only grows. */
  lemma {:induction false} Forward(sched: seq<Turn>, i: nat)
    requires i <= |sched|
    ensures DbEvolves(Exec(sched[..i]).db, Exec(sched).db)
    ensures Exec(sched[..i]).log <= Exec(sched).log
    decreases |sched|
  {
    if i == |sched| {
      assert sched[..i] == sched;
      EvolvesReflexive(Exec(sched).db);
    } else {
      var front, last := sched[..|sched| - 1], sched[|sched| - 1];
      assert front[..i] == sched[..i];
      Forward(front, i);
      Reachable(sched[..i]);
      Reachable(front);
      ApplyKeeps(Exec(front), last.w, last.a);
      LogOnlyGrows(Exec(front), last.w, last.a);
      var a, b, c := Exec(sched[..i]).db, Exec(front).db, Exec(sched).db;
      forall k | k in a ensures k in c && Evolves(a[k], c[k]) { EvolvesTransitive(k, a[k], b[k], c[k]); }
    }
  }

  ghost predicate WasHandedOut(s: State, k: Key) { HandedBefore(s.log, |s.log|, k) }

  /** should_execute = true is answered at most once per (user, idempotency key), and the row counts it. */
  lemma AtMostOneExecution(sched: seq<Turn>)
    ensures var s := Exec(sched);
      && (forall i, j | 0 <= i < |s.log| && 0 <= j < |s.log| && s.log[i].HandedOut? && s.log[j].HandedOut?
            && s.log[i].k == s.log[j].k :: i == j)
      && (forall k | k in s.db ::
            && s.db[k].inv.attempts <= 1
            && (s.db[k].inv.attempts == 1 <==> s.db[k].inv.status in {Running, Succeeded, Failed})
            && (s.db[k].inv.attempts == 1 <==> WasHandedOut(s, k)))
  {
    var s := Exec(sched);
    Reachable(sched);
    forall i, j | 0 <= i < |s.log| && 0 <= j < |s.log| && s.log[i].HandedOut? && s.log[j].HandedOut?
      && s.log[i].k == s.log[j].k
      ensures i == j
    {
      if i < j { assert SameOneShot(s.log[i], s.log[j]); }
      if j < i { assert SameOneShot(s.log[j], s.log[i]); }
    }
    forall k | k in s.db && WasHandedOut(s, k) ensures s.db[k].inv.attempts == 1 {
      var m :| 0 <= m < |s.log| && s.log[m].HandedOut? && s.log[m].k == k;
      assert EventOk(s.db, s.log, m);
      assert RowsOk(k, s.db[k]);
    }
  }

  /** No two workers are inside the handler of the same key. */
  ghost predicate Exclusive(s: State) {
    forall v, w | v != w && WorkerOf(s, v).job.Executing? && WorkerOf(s, w).job.Executing? ::
      KeyOf(WorkerOf(s, v).job.c) != KeyOf(WorkerOf(s, w).job.c)
  }

  /** Only committing a claim starts a handler, and then the row was not started yet. */
  lemma HandlerStarts(s: State, w: nat, a: Action)
    requires Inv(s)
    ensures var t := Apply(s, w, a);
      && (forall v | v != w :: WorkerOf(t, v) == WorkerOf(s, v))
      && (WorkerOf(t, w).job.Executing? && WorkerOf(s, w).job != WorkerOf(t, w).job ==>
            var k := KeyOf(WorkerOf(t, w).job.c); k in s.db ==> !Started(s.db[k].inv.status))
  {
    hide Inv, NextMove, DbOk;
    WorkerJobOk(s, w);
    if a.Step? { MoveStarts(s.db, w, WorkerOf(s, w), a.owners, Blocked(s, w, KeyFor(WorkerOf(s, w).job))); }
  }

  lemma MoveStarts(db: Db, w: nat, wk: Worker, owners: map<string, string>, blocked: bool)
    ensures match NextMove(db, w, wk, owners, blocked)
      case Wait => true
      case Quiet(next, _) => !next.job.Executing?
      case Publish(job, _) => job.Executing? ==> wk.job == ClaimCommit(job.c)
  {
    hide Canonical, JsonObject, DecisionMatches, PayloadMatches, EffectiveMatches, Refusal, InsertInvocation, NewRows;
  }

  lemma StartedHandler(s: State, w: nat)
    requires Inv(s) && WorkerOf(s, w).job.Executing?
    ensures var k := KeyOf(WorkerOf(s, w).job.c); k in s.db && Started(s.db[k].inv.status)
  {
    WorkerJobOk(s, w);
  }

  /** In every reachable state at most one worker runs the handler of a key. */
  lemma {:induction false} HandlersExclude(sched: seq<Turn>)
    ensures Exclusive(Exec(sched))
    decreases |sched|
  {
    hide Inv, Apply;
    if sched != [] {
      var s, last := Exec(sched[..|sched| - 1]), sched[|sched| - 1];
      HandlersExclude(sched[..|sched| - 1]);
      Reachable(sched[..|sched| - 1]);
      HandlerStarts(s, last.w, last.a);
      forall v | WorkerOf(s, v).job.Executing?
        ensures var k := KeyOf(WorkerOf(s, v).job.c); k in s.db && Started(s.db[k].inv.status)
      {
        StartedHandler(s, v);
      }
    }
  }

  /** The two tables in every committed state. PENDING is never visible to another transaction. */
  lemma JointTables(sched: seq<Turn>, k: Key)
    requires k in Exec(sched).db
    ensures var r := Exec(sched).db[k];
      && r.inv.status != Pending
      && (r.inv.status == PendingApproval ==> r.approval.Some? && r.approval.value.status == Awaiting)
      && (r.inv.status == Approved ==> r.approval.Some? && r.approval.value.status in {Granted, Edited})
      && (r.inv.status == Rejected <==> r.approval.Some? && r.approval.value.status == Denied)
      && (r.approval.Some? && r.approval.value.status in {Granted, Edited} ==>
            r.inv.status in {Approved, Running, Succeeded, Failed})
      && (r.approval.None? ==> r.inv.status in {Running, Succeeded, Failed})
  {
    Reachable(sched);
    assert RowsOk(k, Exec(sched).db[k]);
  }

  /** The unguarded promotion of a PENDING row is never reached: no transaction can read one. */
  lemma PromotionIsNeverReached(sched: seq<Turn>, w: nat)
    ensures !WorkerOf(Exec(sched), w).job.EnsurePromote? && !WorkerOf(Exec(sched), w).job.DecidePromote?
  {
    Reachable(sched);
    WorkerJobOk(Exec(sched), w);
  }

  ghost predicate Approves(e: Event, k: Key, c: Call) {
    && e.Decided? && e.k == k && e.d.kind in {"approve", "edit"}
    && c.tool == e.d.effectiveTool
    && Canonical(JsonObject(c.input)) == Canonical(JsonObject(e.d.effectiveInput))
  }

  lemma UndecidedSoFar(s: State, k: Key)
    requires Inv(s) && k in s.db && s.db[k].inv.status == PendingApproval
    ensures forall m | 0 <= m < |s.log| :: !(s.log[m].Decided? && s.log[m].k == k)
  {
    assert RowsOk(k, s.db[k]);
    forall m | 0 <= m < |s.log| ensures !(s.log[m].Decided? && s.log[m].k == k) {
      assert EventOk(s.db, s.log, m);
    }
  }

  /** A call that ever waited for approval is handed out only after a committed approval or edit,
      and only with the tool name and canonical input that decision made effective. */
  lemma ApprovalBeforeExecution(sched: seq<Turn>, i: nat, n: nat, k: Key, c: Call)
    requires i <= |sched|
    requires k in Exec(sched[..i]).db && Exec(sched[..i]).db[k].inv.status == PendingApproval
    requires n < |Exec(sched).log| && Exec(sched).log[n] == HandedOut(k, c)
    ensures exists m :: |Exec(sched[..i]).log| <= m < n && Approves(Exec(sched).log[m], k, c)
  {
    hide Exec, Inv;
    Reachable(sched[..i]);
    Reachable(sched);
    Forward(sched, i);
    UndecidedSoFar(Exec(sched[..i]), k);
    var m := ApprovedFirst(Exec(sched[..i]).db[k], Exec(sched), n, k, c);
  }

  /** Behind a hand-out of a call that waited stands the event of its approval. */
  lemma ApprovedFirst(waiting: Rows, s: State, n: nat, k: Key, c: Call) returns (m: nat)
    requires Inv(s) && n < |s.log| && s.log[n] == HandedOut(k, c)
    requires k in s.db && Evolves(waiting, s.db[k]) && waiting.inv.status == PendingApproval
    ensures m < n && Approves(s.log[m], k, c)
  {
    hide Canonical, JsonObject;
    assert EventOk(s.db, s.log, n);
    m :| 0 <= m < n && s.log[m].Decided? && s.log[m].k == k;
    assert EventOk(s.db, s.log, m);
    assert RowsOk(k, s.db[k]);
  }

  /** Decisions with the same effect on the rows. */
  predicate SameDecision(d: Decision, e: Decision) {
    && StatusFor(d.kind) == StatusFor(e.kind)
    && d.effectiveTool == e.effectiveTool
    && (|| (&& JsonObject(d.payload) == JsonObject(e.payload)
            && JsonObject(d.effectiveInput) == JsonObject(e.effectiveInput))
        || (&& Canonical(JsonObject(d.payload)) == Canonical(e.payload)
            && Canonical(JsonObject(d.effectiveInput)) == Canonical(e.effectiveInput)))
  }

  /** A committed decision is the only one: any resume that returns normally, before or after,
      carried the same decision; with a different one it cannot return. */
  lemma DecisionsAreFinal(sched: seq<Turn>, m: nat, n: nat, j: nat)
    requires m < |Exec(sched).log| && Exec(sched).log[m].Decided?
    requires n < |Exec(sched).log| && Exec(sched).log[n].Recorded?
    requires j < |Exec(sched).log[n].ds| && KeyOf(Exec(sched).log[n].ds[j].call) == Exec(sched).log[m].k
    ensures SameDecision(Exec(sched).log[m].d, Exec(sched).log[n].ds[j])
  {
    var s := Exec(sched);
    Reachable(sched);
    assert EventOk(s.db, s.log, m);
    assert EventOk(s.db, s.log, n);
    assert Honoured(s.db, s.log[n].ds[j]);
  }

  lemma SameAsCommitted(k: Key, r: Rows, d: Decision, e: Decision, seen: Invocation)
    requires DecidedBy(r, d) && InvEvolves(seen, r.inv) && DecisionMatches(r.approval.value, seen, e)
    ensures SameDecision(d, e)
  {
    hide Canonical, JsonObject;
  }

  /** A resume that comes to a call decided differently: it is refused with ApprovalConflict, or starts its second
      pass to be refused there. Either way the winner's rows stay as they are. */
  lemma LoserIsRefused(sched: seq<Turn>, w: nat, owners: map<string, string>, m: nat)
    requires m < |Exec(sched).log| && Exec(sched).log[m].Decided?
    requires var job := WorkerOf(Exec(sched), w).job;
      (job.DecideLoad? || job.DecideCas?) && job.i < |job.ds|
      && KeyOf(job.ds[job.i].call) == Exec(sched).log[m].k && !SameDecision(Exec(sched).log[m].d, job.ds[job.i])
    requires !Blocked(Exec(sched), w, Exec(sched).log[m].k)
    ensures var s, t := Exec(sched), Apply(Exec(sched), w, Step(owners));
      var job := WorkerOf(s, w).job;
      && t.db == s.db
      && (job.DecideLoad? ==> t.log == s.log + [Refused(w, ApprovalConflict)] && WorkerOf(t, w) == Resting)
      && (job.DecideCas? ==> t.log == s.log && WorkerOf(t, w) == Worker(DecideRead(job.ds, 0, Recheck), map[], []))
  {
    hide Exec, Inv, Apply, SameDecision, DecidedBy, Blocked;
    Reachable(sched);
    LoggedEvent(Exec(sched), m);
    LoserStep(Exec(sched), w, owners, Exec(sched).log[m].d);
  }

  lemma LoserStep(s: State, w: nat, owners: map<string, string>, d: Decision)
    requires Inv(s)
    requires var job := WorkerOf(s, w).job;
      (job.DecideLoad? || job.DecideCas?) && job.i < |job.ds|
      && KeyOf(job.ds[job.i].call) == KeyOf(d.call) && !SameDecision(d, job.ds[job.i])
    requires KeyOf(d.call) in s.db && DecidedBy(s.db[KeyOf(d.call)], d) && !Blocked(s, w, KeyOf(d.call))
    ensures var t, job := Apply(s, w, Step(owners)), WorkerOf(s, w).job;
      && t.db == s.db
      && (job.DecideLoad? ==> t.log == s.log + [Refused(w, ApprovalConflict)] && WorkerOf(t, w) == Resting)
      && (job.DecideCas? ==> t.log == s.log && WorkerOf(t, w) == Worker(DecideRead(job.ds, 0, Recheck), map[], []))
  {
    hide Inv, NextMove, SameDecision, DecidedBy, Blocked, JobOk, DbOk;
    WorkerJobOk(s, w);
    LosersMove(s.db, w, WorkerOf(s, w), d, owners, Blocked(s, w, KeyFor(WorkerOf(s, w).job)));
    assert s.log + [] == s.log;
  }

  lemma LoggedEvent(s: State, n: nat)
    requires Inv(s) && n < |s.log|
    ensures EventOk(s.db, s.log, n)
  {
  }

  lemma MadeOpen(db: Db, tx: Db, made: seq<Decision>, k: Key)
    requires DecideTx(db, tx, made) && k in tx
    ensures k in db && Decidable(db[k])
  {
    var j :| 0 <= j < |made| && KeyOf(made[j].call) == k;
    assert MadeRow(db, tx, made[j]);
  }

  lemma LosersMove(db: Db, w: nat, wk: Worker, d: Decision, owners: map<string, string>, blocked: bool)
    requires wk.job.DecideCas? ==> !blocked
    requires DbOk(db) && JobOk(db, wk) && (wk.job.DecideLoad? || wk.job.DecideCas?) && wk.job.i < |wk.job.ds|
    requires var k := KeyOf(wk.job.ds[wk.job.i].call);
      k == KeyOf(d.call) && k in db && DecidedBy(db[k], d) && !SameDecision(d, wk.job.ds[wk.job.i])
    ensures NextMove(db, w, wk, owners, blocked)
      == if wk.job.DecideLoad? then Refuse(w, ApprovalConflict) else Rollback(DecideRead(wk.job.ds, 0, Recheck), [])
  {
    hide Canonical, JsonObject, DecisionMatches, HonouredPrefix, SameDecision, RowsOk;
    var e := wk.job.ds[wk.job.i];
    var k := KeyOf(e.call);
    if k in wk.tx { MadeOpen(db, wk.tx, wk.made, k); }
    if wk.job.DecideLoad? {
      if DecisionMatches(db[k].approval.value, wk.job.seen, e) { SameAsCommitted(k, db[k], d, e, wk.job.seen); }
    }
  }

  /** An identical retry never hits the payload conflict: once a committed row accepts a call, no later attempt
      to ask for its approval or to record its decision is refused there, in any interleaving. */
  lemma RetryIsNotRefused(sched: seq<Turn>, i: nat, w: nat, owners: map<string, string>, c: Call)
    requires i <= |sched| && KeyOf(c) in Exec(sched[..i]).db
    requires PayloadMatches(Exec(sched[..i]).db[KeyOf(c)].inv, c, false) && Refusal(c, owners).None?
    requires AboutToEnsure(WorkerOf(Exec(sched), w).job, c)
    ensures var s, t := Exec(sched), Apply(Exec(sched), w, Step(owners));
      && t.db == s.db && t.log == s.log
      && Ensured(WorkerOf(s, w).job, WorkerOf(t, w).job)
  {
    hide Exec, Inv, Apply, PayloadMatches, Refusal, RowsOk, AboutToEnsure, Ensured;
    var k := KeyOf(c);
    Reachable(sched[..i]);
    Reachable(sched);
    Forward(sched, i);
    CommittedRow(Exec(sched[..i]), k);
    PayloadIsStable(Exec(sched[..i]).db[k].inv, Exec(sched).db[k].inv, c, false);
    RetryStep(Exec(sched), w, owners, c);
  }

  lemma RetryStep(s: State, w: nat, owners: map<string, string>, c: Call)
    requires Inv(s) && AboutToEnsure(WorkerOf(s, w).job, c) && Refusal(c, owners).None?
    requires KeyOf(c) in s.db && PayloadMatches(s.db[KeyOf(c)].inv, c, false)
    ensures var t := Apply(s, w, Step(owners));
      t.db == s.db && t.log == s.log && Ensured(WorkerOf(s, w).job, WorkerOf(t, w).job)
  {
    hide Inv, NextMove, PayloadMatches, Refusal, AboutToEnsure, Ensured, JobOk, DbOk, Blocked, KeyFor;
    WorkerJobOk(s, w);
    RetryMove(s.db, w, WorkerOf(s, w), owners, c, Blocked(s, w, KeyFor(WorkerOf(s, w).job)));
    assert s.log + [] == s.log;
  }

  predicate AboutToEnsure(job: Job, c: Call) {
    || (job.EnsureRead? && job.rest != [] && job.rest[0] == c)
    || (job.DecideRead? && job.i < |job.ds| && job.ds[job.i].call == c)
  }

  /** The statement went through: the worker goes on with the approval of the same call. */
  predicate Ensured(before: Job, after: Job) {
    match before
    case EnsureRead(rest) => after == EnsureApproval(rest)
    case DecideRead(ds, i, pass) => after.DecideLoad? && after.ds == ds && after.i == i && after.pass == pass
    case _ => false
  }

  lemma CommittedRow(s: State, k: Key)
    requires Inv(s) && k in s.db
    ensures RowsOk(k, s.db[k]) && (Unedited(s.db[k].inv) || Rank(s.db[k].inv.status) >= 2)
  {
  }

  lemma RetryMove(db: Db, w: nat, wk: Worker, owners: map<string, string>, c: Call, blocked: bool)
    requires DbOk(db) && JobOk(db, wk) && AboutToEnsure(wk.job, c) && Refusal(c, owners).None?
    requires KeyOf(c) in db && PayloadMatches(db[KeyOf(c)].inv, c, false)
    ensures var m := NextMove(db, w, wk, owners, blocked); m.Quiet? && m.answers == [] && Ensured(wk.job, m.wk.job)
  {
    hide PayloadMatches, Refusal, RowsOk, EnsureTx, DecideTx, HonouredPrefix;
    var k, view := KeyOf(c), db + wk.tx;
    if wk.job.EnsureRead? { EnsureRowsOk(db, wk.tx); } else { DecideRowsOk(db, wk.tx, wk.made); }
    assert RowsOk(k, db[k]) && RowsOk(k, view[k]) && Evolves(db[k], view[k]);
    RowFacts(k, db[k]);
    RowFacts(k, view[k]);
    PayloadIsStable(db[k].inv, view[k].inv, c, false);
  }

  lemma RowFacts(k: Key, r: Rows)
    requires RowsOk(k, r)
    ensures (Unedited(r.inv) || Rank(r.inv.status) >= 2) && !NeedsPromotion(r.inv)
  {
  }

  /** Two JSON resumes that both return normally agree. */
  lemma RacingResumesAgree(sched: seq<Turn>, m: nat, n: nat, i: nat, j: nat)
    requires m < |Exec(sched).log| && Exec(sched).log[m].Recorded? && i < |Exec(sched).log[m].ds|
    requires n < |Exec(sched).log| && Exec(sched).log[n].Recorded? && j < |Exec(sched).log[n].ds|
    requires var d, e := Exec(sched).log[m].ds[i], Exec(sched).log[n].ds[j];
      KeyOf(d.call) == KeyOf(e.call) && Repeatable(d) && Repeatable(e)
    ensures var d, e := Exec(sched).log[m].ds[i], Exec(sched).log[n].ds[j];
      && StatusFor(d.kind) == StatusFor(e.kind) && d.effectiveTool == e.effectiveTool
      && Canonical(d.payload) == Canonical(e.payload) && Canonical(d.effectiveInput) == Canonical(e.effectiveInput)
  {
    var s := Exec(sched);
    Reachable(sched);
    assert EventOk(s.db, s.log, m);
    assert EventOk(s.db, s.log, n);
    var d, e := s.log[m].ds[i], s.log[n].ds[j];
    HonouredRepeatable(s.db, d);
    HonouredRepeatable(s.db, e);
  }

  lemma HonouredRepeatable(db: Db, d: Decision)
    requires DbOk(db) && Honoured(db, d) && Repeatable(d)
    ensures Matched(db, d)
  {
    var k := KeyOf(d.call);
    assert RowsOk(k, db[k]);
    CanonicalStableIff(d.payload);
    CanonicalStableIff(d.effectiveInput);
  }

  /** A refused entry point has rolled everything back. */
  lemma RefusalLeavesTables(s: State, w: nat, a: Action, e: Error)
    requires Inv(s)
    requires Apply(s, w, a).log == s.log + [Refused(w, e)]
    ensures Apply(s, w, a).db == s.db && WorkerOf(Apply(s, w, a), w) == Resting
  {
    hide Inv, JobOk, KeyFor;
    assert Apply(s, w, a).log[|s.log|] == Refused(w, e);
    if a.Step? {
      var wk := WorkerOf(s, w);
      var blocked := Blocked(s, w, KeyFor(wk.job));
      WorkerJobOk(s, w);
      MoveQuiet(s.db, w, wk, a.owners, blocked);
      PublishKinds(s.db, w, wk, a.owners, blocked);
      var m := NextMove(s.db, w, wk, a.owners, blocked);
      if m.Publish? { PublishedEvents(wk, m); }
    }
  }

  lemma PublishedEvents(wk: Worker, m: Move)
    requires IsPublication(wk, m)
    ensures forall i | 0 <= i < |m.events| :: !m.events[i].Refused?
  {
  }

  /** A batch that returns has committed all its decisions in one step, and nothing else. */
  lemma BatchIsAtomic(s: State, w: nat, owners: map<string, string>, ds: seq<Decision>)
    requires Inv(s) && WorkerOf(s, w).job.DecideRead? && WorkerOf(s, w).job.ds == ds && WorkerOf(s, w).job.i == |ds|
    ensures BatchWritten(s.db, Apply(s, w, Step(owners)).db, WorkerOf(s, w).made, ds)
  {
    var wk := WorkerOf(s, w);
    WorkerJobOk(s, w);
    assert Apply(s, w, Step(owners)).db == s.db + wk.tx;
    BatchRows(s.db, wk.tx, wk.made, ds);
  }

  /** Every decision of the batch holds; each one it made found its rows open; no other row changed. */
  ghost predicate BatchWritten(before: Db, after: Db, made: seq<Decision>, ds: seq<Decision>) {
    && (forall j | 0 <= j < |ds| :: Honoured(after, ds[j]))
    && after.Keys == before.Keys
    && (forall j | 0 <= j < |made| ::
          var k := KeyOf(made[j].call);
          k in before && Decidable(before[k]) && k in after && DecidedBy(after[k], made[j]))
    && (forall k | k in before && after[k] != before[k] :: exists j | 0 <= j < |made| :: KeyOf(made[j].call) == k)
  }

  lemma BatchRows(db: Db, tx: Db, made: seq<Decision>, ds: seq<Decision>)
    requires DecideTx(db, tx, made) && HonouredPrefix(db + tx, ds, |ds|)
    ensures BatchWritten(db, db + tx, made, ds)
  {
    MadeKeys(db, tx, made);
    forall j | 0 <= j < |made|
      ensures var k := KeyOf(made[j].call);
        k in db && Decidable(db[k]) && k in db + tx && DecidedBy((db + tx)[k], made[j])
    {
      assert MadeRow(db, tx, made[j]);
    }
  }

  /** An approval asked for when the call already ran, or already ended, is never decided. */
  lemma LateApprovalStaysOpen(sched: seq<Turn>, i: nat, k: Key)
    requires i <= |sched| && k in Exec(sched[..i]).db
    requires var r := Exec(sched[..i]).db[k];
      r.approval.Some? && r.approval.value.status == Awaiting && r.inv.status != PendingApproval
    ensures k in Exec(sched).db && Exec(sched).db[k].approval == Exec(sched[..i]).db[k].approval
  {
    Reachable(sched[..i]);
    Forward(sched, i);
    assert RowsOk(k, Exec(sched[..i]).db[k]);
    assert Evolves(Exec(sched[..i]).db[k], Exec(sched).db[k]);
  }

  predicate StatusDiffers(a: Db, b: Db, k: Key) { k in a && k in b && a[k].inv.status != b[k].inv.status }

  /** How many turns of a run changed the committed status of a call. */
  function StatusChanges(sched: seq<Turn>, k: Key): nat
    decreases |sched|
  {
    if sched == [] then 0
    else
      var front := sched[..|sched| - 1];
      StatusChanges(front, k) + if StatusDiffers(Exec(front).db, Exec(sched).db, k) then 1 else 0
  }

  /** Every change raises the rank, so a committed call changes status at most three times. */
  lemma {:induction false} FewStatusChanges(sched: seq<Turn>, k: Key)
    ensures StatusChanges(sched, k) <= 3
    ensures if k in Exec(sched).db then StatusChanges(sched, k) < Rank(Exec(sched).db[k].inv.status)
            else StatusChanges(sched, k) == 0
    decreases |sched|
  {
    Reachable(sched);
    if sched != [] {
      var front, last := sched[..|sched| - 1], sched[|sched| - 1];
      FewStatusChanges(front, k);
      Reachable(front);
      ApplyKeeps(Exec(front), last.w, last.a);
      if k in Exec(front).db { assert Evolves(Exec(front).db[k], Exec(sched).db[k]); }
    }
    if k in Exec(sched).db { assert RowsOk(k, Exec(sched).db[k]); }
  }

  lemma TerminalRow(r: Rows, q: Rows)
    requires Evolves(r, q) && Rank(r.inv.status) == 4
    ensures q.inv == r.inv
  {
  }

  /** SUCCEEDED, FAILED and REJECTED absorb: the invocation row never changes again. */
  lemma TerminalAbsorbs(sched: seq<Turn>, i: nat, k: Key)
    requires i <= |sched| && k in Exec(sched[..i]).db
    requires Rank(Exec(sched[..i]).db[k].inv.status) == 4
    ensures k in Exec(sched).db && Exec(sched).db[k].inv == Exec(sched[..i]).db[k].inv
  {
    Forward(sched, i);
    TerminalRow(Exec(sched[..i]).db[k], Exec(sched).db[k]);
  }
}
