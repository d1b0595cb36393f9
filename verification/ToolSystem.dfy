/** The durable tool-call protocol with any number of workers.

Every worker runs one of the service's three entry points statement by statement, inside a
transaction: its writes are its own until it commits, the rows it wrote stay locked until then,
and other workers' statements and commits come in between in any order. */
module ToolSystem {
  import opened Values
  import opened ToolRows

  datatype Pass = First | Recheck

  /** Where a worker stands in the entry point it runs. */
  datatype Job =
    | Idle
    | ClaimRead(c: Call)
    | ClaimCas(c: Call, expected: InvocationStatus)
    | ClaimCommit(c: Call)
    | ClaimReread(c: Call)                // not executable: the answer reports the row as it is by then
    | Executing(c: Call)                  // the claim answered should_execute: the handler runs
    | EnsureRead(rest: seq<Call>)
    | EnsurePromote(rest: seq<Call>)
    | EnsureApproval(rest: seq<Call>)
    | DecideRead(ds: seq<Decision>, i: nat, pass: Pass)
    | DecidePromote(ds: seq<Decision>, i: nat, pass: Pass)
    | DecideLoad(ds: seq<Decision>, i: nat, pass: Pass, seen: Invocation)
    | DecideCas(ds: seq<Decision>, i: nat)

  /** `tx` holds the uncommitted rows, `made` the decisions written so far in this transaction. */
  datatype Worker = Worker(job: Job, tx: Db, made: seq<Decision>)

  const Resting := Worker(Idle, map[], [])

  datatype Event =
    | HandedOut(k: Key, c: Call)             // claim_tool_invocation: should_execute = true
    | Replied(k: Key, status: InvocationStatus) // claim_tool_invocation: should_execute = false
    | Decided(k: Key, d: Decision)           // a decision was committed
    | Recorded(ds: seq<Decision>)            // record_approval_decisions returned
    | Refused(w: nat, e: Error)              // an entry point raised, after rolling back

  datatype State = State(db: Db, workers: map<nat, Worker>, log: seq<Event>)

  datatype Action =
    | BeginClaim(c: Call)
    | BeginEnsure(calls: seq<Call>)
    | BeginDecide(ds: seq<Decision>)
    | Step(owners: map<string, string>)
    | HandlerEnds(e: Ending)
    | Abort                                  // deadlock, lost connection or crash: the transaction is gone

  const Init := State(map[], map[], [])

  function WorkerOf(s: State, w: nat): Worker {
    if w in s.workers then s.workers[w] else Resting
  }

  /** Another worker has written the rows of `k` and not committed: a write has to wait. */
  predicate Blocked(s: State, w: nat, k: Key) {
    exists v | v in s.workers :: v != w && k in s.workers[v].tx
  }

  /** What a worker's next statement does: nothing yet, private changes, or a commit. */
  datatype Move =
    | Wait
    | Quiet(wk: Worker, answers: seq<Event>)
    | Publish(job: Job, events: seq<Event>)

  function Rollback(job: Job, answers: seq<Event>): Move { Quiet(Worker(job, map[], []), answers) }

  function Refuse(w: nat, e: Error): Move { Rollback(Idle, [Refused(w, e)]) }

  /** The key the next statement is about. */
  function KeyFor(job: Job): Key {
    match job
    case ClaimRead(c) => KeyOf(c)
    case ClaimCas(c, _) => KeyOf(c)
    case EnsureRead(rest) => if rest == [] then NoKey else KeyOf(rest[0])
    case EnsurePromote(rest) => if rest == [] then NoKey else KeyOf(rest[0])
    case EnsureApproval(rest) => if rest == [] then NoKey else KeyOf(rest[0])
    case DecideRead(ds, i, _) => if i < |ds| then KeyOf(ds[i].call) else NoKey
    case DecidePromote(ds, i, _) => if i < |ds| then KeyOf(ds[i].call) else NoKey
    case DecideCas(ds, i) => if i < |ds| then KeyOf(ds[i].call) else NoKey
    case _ => NoKey
  }

  const NoKey := Key("", "", "")

  /** The next statement of worker `w`; `blocked` says whether its key is locked by another worker. */
  function NextMove(db: Db, w: nat, wk: Worker, owners: map<string, string>, blocked: bool): Move {
    match wk.job
    case Idle => Wait
    case Executing(_) => Wait
    case ClaimRead(c) => MoveClaimRead(db, w, wk, c, owners, blocked)
    case ClaimCas(c, expected) => MoveClaimCas(db, wk, c, expected, blocked)
    case ClaimCommit(c) => Publish(Executing(c), [HandedOut(KeyOf(c), c)])
    case ClaimReread(c) =>
      if KeyOf(c) in db then Rollback(Idle, [Replied(KeyOf(c), db[KeyOf(c)].inv.status)]) else Refuse(w, InvocationLost)
    case EnsureRead(rest) => MoveEnsureRead(db, w, wk, rest, owners, blocked)
    case EnsurePromote(rest) => MoveEnsurePromote(db, wk, rest, blocked)
    case EnsureApproval(rest) => MoveEnsureApproval(db, wk, rest, blocked)
    case DecideRead(ds, i, pass) => MoveDecideRead(db, w, wk, ds, i, pass, owners, blocked)
    case DecidePromote(ds, i, pass) => MoveDecidePromote(db, wk, ds, i, pass, blocked)
    case DecideLoad(ds, i, pass, seen) => MoveDecideLoad(db, w, wk, ds, i, pass, seen)
    case DecideCas(ds, i) => MoveDecideCas(db, wk, ds, i, blocked)
  }

  function Perform(s: State, w: nat, m: Move): State {
    match m
    case Wait => s
    case Quiet(wk, answers) => State(s.db, s.workers[w := wk], s.log + answers)
    case Publish(job, events) =>
      State(s.db + WorkerOf(s, w).tx, s.workers[w := Worker(job, map[], [])], s.log + events)
  }

  function Begin(s: State, w: nat, job: Job): State {
    if WorkerOf(s, w).job == Idle then Perform(s, w, Quiet(Worker(job, map[], []), [])) else s
  }

  function Apply(s: State, w: nat, a: Action): State {
    match a
    case BeginClaim(c) => Begin(s, w, ClaimRead(c))
    case BeginEnsure(calls) => Begin(s, w, EnsureRead(calls))
    case BeginDecide(ds) => Begin(s, w, DecideRead(ds, 0, First))
    case Abort => Perform(s, w, Rollback(Idle, []))
    case HandlerEnds(e) => EndHandler(s, w, e)
    case Step(owners) =>
      var wk := WorkerOf(s, w);
      Perform(s, w, NextMove(s.db, w, wk, owners, Blocked(s, w, KeyFor(wk.job))))
  }

  // ---- claim_tool_invocation ---------------------------------------------------------------

  function MoveClaimRead(db: Db, w: nat, wk: Worker, c: Call, owners: map<string, string>, blocked: bool): Move {
    var k, view := KeyOf(c), db + wk.tx;
    var refusal := Refusal(c, owners);
    if refusal.Some? then Refuse(w, refusal.value)
    else if k !in view && blocked then Wait
    else
      var inv := InsertInvocation(view, c, false)[k].inv;
      if !PayloadMatches(inv, c, true) || !EffectiveMatches(inv, c) then Refuse(w, InvocationConflict)
      else if inv.status != Pending && inv.status != Approved then Publish(ClaimReread(c), [])
      else Quiet(Worker(ClaimCas(c, inv.status), if k in view then wk.tx else wk.tx[k := NewRows(c, false)], []), [])
  }

  function MoveClaimCas(db: Db, wk: Worker, c: Call, expected: InvocationStatus, blocked: bool): Move {
    var k, view := KeyOf(c), db + wk.tx;
    if blocked then Wait
    else if k in view && view[k].inv.status == expected then
      Quiet(Worker(ClaimCommit(c), wk.tx[k := StartRunning(view[k])], []), [])
    else Rollback(ClaimReread(c), [])
  }

  /** `complete_tool_invocation` or `fail_tool_invocation`, and its commit. */
  function EndHandler(s: State, w: nat, e: Ending): State {
    var job := WorkerOf(s, w).job;
    if !job.Executing? then s
    else
      var k := KeyOf(job.c);
      if Blocked(s, w, k) || k !in s.db then s
      else State(s.db[k := Finish(s.db[k], e)], s.workers[w := Resting], s.log)
  }

  // ---- ensure_pending_approvals ------------------------------------------------------------

  function MoveEnsureRead(db: Db, w: nat, wk: Worker, rest: seq<Call>, owners: map<string, string>,
                          blocked: bool): Move {
    if rest == [] then Publish(Idle, [])
    else
      var c := rest[0];
      var k, view := KeyOf(c), db + wk.tx;
      var refusal := Refusal(c, owners);
      if refusal.Some? then Refuse(w, refusal.value)
      else if k !in view && blocked then Wait
      else
        var inv := InsertInvocation(view, c, true)[k].inv;
        if !PayloadMatches(inv, c, false) then Refuse(w, InvocationConflict)
        else
          var tx := if k in view then wk.tx else wk.tx[k := NewRows(c, true)];
          Quiet(Worker(if NeedsPromotion(inv) then EnsurePromote(rest) else EnsureApproval(rest), tx, []), [])
  }

  /** The promotion is not guarded by the status it read. */
  function MoveEnsurePromote(db: Db, wk: Worker, rest: seq<Call>, blocked: bool): Move {
    var view := db + wk.tx;
    if rest == [] || blocked || KeyOf(rest[0]) !in view then Wait
    else
      var k := KeyOf(rest[0]);
      Quiet(Worker(EnsureApproval(rest), wk.tx[k := Promote(view[k])], []), [])
  }

  function MoveEnsureApproval(db: Db, wk: Worker, rest: seq<Call>, blocked: bool): Move {
    var view := db + wk.tx;
    if rest == [] || KeyOf(rest[0]) !in view then Wait
    else
      var k := KeyOf(rest[0]);
      if view[k].approval.Some? then Quiet(Worker(EnsureRead(rest[1..]), wk.tx, []), [])
      else if blocked then Wait
      else Quiet(Worker(EnsureRead(rest[1..]), wk.tx[k := WithApproval(view[k])], []), [])
  }

  // ---- record_approval_decisions -----------------------------------------------------------

  function DecidedEvents(made: seq<Decision>): (r: seq<Event>)
    ensures |r| == |made|
    ensures forall j :: 0 <= j < |made| ==> r[j] == Decided(KeyOf(made[j].call), made[j])
  {
    seq(|made|, j requires 0 <= j < |made| => Decided(KeyOf(made[j].call), made[j]))
  }

  function MoveDecideRead(db: Db, w: nat, wk: Worker, ds: seq<Decision>, i: nat, pass: Pass,
                          owners: map<string, string>, blocked: bool): Move
  {
    if i >= |ds| then Publish(Idle, DecidedEvents(wk.made) + [Recorded(ds)])
    else
      var c := ds[i].call;
      var k, view := KeyOf(c), db + wk.tx;
      var refusal := Refusal(c, owners);
      if refusal.Some? then Refuse(w, refusal.value)
      else if k !in view && blocked then Wait
      else
        var inv := InsertInvocation(view, c, true)[k].inv;
        if !PayloadMatches(inv, c, false) then Refuse(w, InvocationConflict)
        else
          var tx := if k in view then wk.tx else wk.tx[k := NewRows(c, true)];
          var next := if NeedsPromotion(inv) then DecidePromote(ds, i, pass) else DecideLoad(ds, i, pass, inv);
          Quiet(Worker(next, tx, wk.made), [])
  }

  function MoveDecidePromote(db: Db, wk: Worker, ds: seq<Decision>, i: nat, pass: Pass, blocked: bool): Move {
    var view := db + wk.tx;
    if i >= |ds| || blocked || KeyOf(ds[i].call) !in view then Wait
    else
      var k := KeyOf(ds[i].call);
      var r := Promote(view[k]);
      Quiet(Worker(DecideLoad(ds, i, pass, r.inv), wk.tx[k := r], wk.made), [])
  }

  /** The approval is read by a statement of its own, after the invocation `seen` before it. */
  function MoveDecideLoad(db: Db, w: nat, wk: Worker, ds: seq<Decision>, i: nat, pass: Pass, seen: Invocation): Move {
    var view := db + wk.tx;
    if i >= |ds| then Wait
    else if KeyOf(ds[i].call) !in view || view[KeyOf(ds[i].call)].approval.None? then Refuse(w, ApprovalConflict)
    else
      var approval := view[KeyOf(ds[i].call)].approval.value;
      if pass == Recheck || approval.status != Awaiting then
        if DecisionMatches(approval, seen, ds[i]) then Quiet(Worker(DecideRead(ds, i + 1, pass), wk.tx, wk.made), [])
        else Refuse(w, ApprovalConflict)
      else if StatusFor(ds[i].kind).None? then Refuse(w, ApprovalConflict)
      else Quiet(Worker(DecideCas(ds, i), wk.tx, wk.made), [])
  }

  /** Both updates are guarded; a miss rolls the whole batch back and starts the second pass. */
  function MoveDecideCas(db: Db, wk: Worker, ds: seq<Decision>, i: nat, blocked: bool): Move {
    var view := db + wk.tx;
    if i >= |ds| || StatusFor(ds[i].kind).None? || blocked then Wait
    else
      var k := KeyOf(ds[i].call);
      if k in view && Decidable(view[k]) then
        Quiet(Worker(DecideRead(ds, i + 1, First), wk.tx[k := Decide(view[k], ds[i])], wk.made + [ds[i]]), [])
      else Rollback(DecideRead(ds, 0, Recheck), [])
  }

  // ---- The invariant -----------------------------------------------------------------------

  ghost predicate EnsureRow(db: Db, k: Key, r: Rows) {
    RowsOk(k, r) && if k in db then r == WithApproval(db[k]) else r.inv.status == PendingApproval
  }

  ghost predicate EnsureTx(db: Db, tx: Db) { forall k | k in tx :: EnsureRow(db, k, tx[k]) }

  /** The uncommitted rows of a batch are the committed ones with the made decisions applied, one each. */
  ghost predicate DecideTx(db: Db, tx: Db, made: seq<Decision>) {
    && (forall k | k in tx :: exists j :: 0 <= j < |made| && KeyOf(made[j].call) == k)
    && (forall j | 0 <= j < |made| :: MadeRow(db, tx, made[j]))
    && (forall i, j | 0 <= i < j < |made| :: KeyOf(made[i].call) != KeyOf(made[j].call))
  }

  ghost predicate MadeRow(db: Db, tx: Db, d: Decision) {
    var k := KeyOf(d.call);
    k in tx && k in db && Decidable(db[k]) && StatusFor(d.kind).Some? && tx[k] == Decide(db[k], d)
  }

  ghost predicate HonouredPrefix(view: Db, ds: seq<Decision>, n: nat) {
    n <= |ds| && forall j | 0 <= j < n :: Honoured(view, ds[j])
  }

  ghost predicate JobOk(db: Db, wk: Worker) {
    match wk.job
    case Idle => wk.tx == map[] && wk.made == []
    case ClaimRead(_) => wk.tx == map[] && wk.made == []
    case ClaimReread(_) => wk.tx == map[] && wk.made == []
    case Executing(c) => wk.tx == map[] && wk.made == [] && KeyOf(c) in db && Started(db[KeyOf(c)].inv.status)
    case ClaimCas(c, expected) =>
      wk.made == [] &&
      if expected == Pending then KeyOf(c) !in db && wk.tx == map[KeyOf(c) := NewRows(c, false)]
      else expected == Approved && wk.tx == map[] && KeyOf(c) in db
           && Rank(db[KeyOf(c)].inv.status) >= 2 && EffectiveMatches(db[KeyOf(c)].inv, c)
    case ClaimCommit(c) =>
      wk.made == [] &&
      if KeyOf(c) in db then
        db[KeyOf(c)].inv.status == Approved && EffectiveMatches(db[KeyOf(c)].inv, c)
        && wk.tx == map[KeyOf(c) := StartRunning(db[KeyOf(c)])]
      else wk.tx == map[KeyOf(c) := StartRunning(NewRows(c, false))]
    case EnsureRead(_) => wk.made == [] && EnsureTx(db, wk.tx)
    case EnsurePromote(_) => false
    case EnsureApproval(rest) =>
      && wk.made == [] && rest != []
      && KeyOf(rest[0]) in db + wk.tx
      && forall q | q in wk.tx :: EnsureRow(db, q, if q == KeyOf(rest[0]) then WithApproval(wk.tx[q]) else wk.tx[q])
    case DecideRead(ds, i, pass) =>
      && HonouredPrefix(db + wk.tx, ds, i) && DecideTx(db, wk.tx, wk.made)
      && (pass == Recheck ==> wk.tx == map[] && wk.made == [])
    case DecidePromote(_, _, _) => false
    case DecideLoad(ds, i, pass, seen) =>
      && i < |ds| && seen.status != Pending && HonouredPrefix(db + wk.tx, ds, i)
      && var k := KeyOf(ds[i].call);
         if k in db then
           DecideTx(db, wk.tx, wk.made) && InvEvolves(seen, (db + wk.tx)[k].inv)
           && AcceptsCall(db + wk.tx, ds[i].call)
           && (pass == Recheck ==> wk.tx == map[] && wk.made == [])
         else k in wk.tx && wk.tx[k].approval.None?
    case DecideCas(ds, i) =>
      && i < |ds| && HonouredPrefix(db + wk.tx, ds, i) && DecideTx(db, wk.tx, wk.made)
      && KeyOf(ds[i].call) in db && AcceptsCall(db + wk.tx, ds[i].call) && StatusFor(ds[i].kind).Some?
  }

  ghost predicate HandedBefore(log: seq<Event>, n: nat, k: Key) {
    exists m :: 0 <= m < n && m < |log| && log[m].HandedOut? && log[m].k == k
  }

  ghost predicate DecidedBefore(log: seq<Event>, n: nat, k: Key) {
    exists m :: 0 <= m < n && m < |log| && log[m].Decided? && log[m].k == k
  }

  predicate SameOneShot(a: Event, b: Event) {
    (a.HandedOut? && b.HandedOut? && a.k == b.k) || (a.Decided? && b.Decided? && a.k == b.k)
  }

  /** No call was handed out twice and none was decided twice. */
  ghost predicate OneShot(log: seq<Event>) {
    forall i, j | 0 <= i < j < |log| :: !SameOneShot(log[i], log[j])
  }

  ghost predicate EventOk(db: Db, log: seq<Event>, i: nat)
    requires i < |log|
  {
    match log[i]
    case HandedOut(k, c) =>
      && k == KeyOf(c) && k in db && Started(db[k].inv.status) && EffectiveMatches(db[k].inv, c)
      && (Settling(db[k].approval) ==> DecidedBefore(log, i, k))
    case Decided(k, d) => k == KeyOf(d.call) && k in db && DecidedBy(db[k], d)
    case Recorded(ds) => HonouredPrefix(db, ds, |ds|)
    case _ => true
  }

  ghost predicate LogOk(db: Db, log: seq<Event>) {
    && OneShot(log)
    && (forall i | 0 <= i < |log| :: EventOk(db, log, i))
    && (forall k | k in db && Started(db[k].inv.status) :: HandedBefore(log, |log|, k))
    && (forall k | k in db && Settling(db[k].approval) :: DecidedBefore(log, |log|, k))
  }

  /** No two workers have written the same key. */
  ghost predicate Apart(workers: map<nat, Worker>) {
    forall v, w, k | v in workers && w in workers && v != w && k in workers[v].tx :: k !in workers[w].tx
  }

  ghost predicate Inv(s: State) {
    && DbOk(s.db)
    && LogOk(s.db, s.log)
    && Apart(s.workers)
    && forall w | w in s.workers :: JobOk(s.db, s.workers[w])
  }

  // ---- The invariant is kept ---------------------------------------------------------------

  /** What a worker relies on survives the commits of the others. */
  lemma JobStable(db: Db, t: Db, wk: Worker)
    requires DbOk(db) && DbEvolves(db, db + t) && JobOk(db, wk)
    requires forall k | k in t :: k !in wk.tx
    ensures JobOk(db + t, wk)
  {
    hide EnsureTx, EnsureRow, DecideTx, HonouredPrefix, EffectiveMatches, RowsOk, Evolves, InvEvolves, StartRunning;
    match wk.job
    case ClaimCas(c, expected) => if KeyOf(c) in db { ClaimStable(KeyOf(c), db[KeyOf(c)], (db + t)[KeyOf(c)], c); }
    case Executing(c) => ClaimStable(KeyOf(c), db[KeyOf(c)], (db + t)[KeyOf(c)], c);
    case EnsureRead(_) => EnsureStable(db, t, wk.tx);
    case EnsureApproval(rest) => EnsureApprovalStable(db, t, wk, rest);
    case DecideRead(ds, i, pass) => DecideStable(db, t, wk, ds, i);
    case DecideCas(ds, i) =>
      DecideStable(db, t, wk, ds, i);
      AcceptsStable(db, t, wk.tx, ds[i].call);
    case DecideLoad(ds, i, pass, seen) => LoadStable(db, t, wk, ds, i, pass, seen);
    case _ =>
  }

  lemma ClaimStable(k: Key, r: Rows, q: Rows, c: Call)
    requires RowsOk(k, r) && Evolves(r, q)
    ensures Started(r.inv.status) ==> Started(q.inv.status)
    ensures Rank(r.inv.status) >= 2 && EffectiveMatches(r.inv, c) ==>
      Rank(q.inv.status) >= 2 && EffectiveMatches(q.inv, c)
  {
    hide Canonical, JsonObject;
  }

  lemma EnsureStable(db: Db, t: Db, tx: Db)
    requires EnsureTx(db, tx) && forall k | k in t :: k !in tx
    ensures EnsureTx(db + t, tx)
  {
  }

  lemma EnsureApprovalStable(db: Db, t: Db, wk: Worker, rest: seq<Call>)
    requires JobOk(db, wk) && wk.job == EnsureApproval(rest)
    requires forall k | k in t :: k !in wk.tx
    ensures JobOk(db + t, wk)
  {
    hide RowsOk, WithApproval;
    forall q | q in wk.tx
      ensures EnsureRow(db + t, q, if q == KeyOf(rest[0]) then WithApproval(wk.tx[q]) else wk.tx[q])
    {
      assert EnsureRow(db, q, if q == KeyOf(rest[0]) then WithApproval(wk.tx[q]) else wk.tx[q]);
    }
  }

  lemma DecideStable(db: Db, t: Db, wk: Worker, ds: seq<Decision>, i: nat)
    requires DbOk(db) && DbEvolves(db, db + t)
    requires DecideTx(db, wk.tx, wk.made) && HonouredPrefix(db + wk.tx, ds, i)
    requires forall k | k in t :: k !in wk.tx
    ensures DecideTx(db + t, wk.tx, wk.made) && HonouredPrefix(db + t + wk.tx, ds, i)
  {
    PrefixStable(db, t, wk, ds, i);
    MadeStable(db, t, wk);
  }

  lemma AcceptsStable(db: Db, t: Db, tx: Db, c: Call)
    requires DbOk(db) && DbEvolves(db, db + t) && AcceptsCall(db + tx, c)
    requires forall k | k in t :: k !in tx
    ensures AcceptsCall(db + t + tx, c)
  {
    hide PayloadMatches;
    var k := KeyOf(c);
    if k !in tx {
      assert RowsOk(k, db[k]) && Evolves(db[k], (db + t)[k]);
      PayloadIsStable(db[k].inv, (db + t)[k].inv, c, false);
    }
  }

  lemma LoadStable(db: Db, t: Db, wk: Worker, ds: seq<Decision>, i: nat, pass: Pass, seen: Invocation)
    requires DbOk(db) && DbEvolves(db, db + t) && wk.job == DecideLoad(ds, i, pass, seen) && JobOk(db, wk)
    requires forall k | k in t :: k !in wk.tx
    ensures JobOk(db + t, wk)
  {
    hide PayloadMatches;
    PrefixStable(db, t, wk, ds, i);
    var k := KeyOf(ds[i].call);
    if k in db {
      AcceptsStable(db, t, wk.tx, ds[i].call);
      MadeStable(db, t, wk);
      assert InvEvolves(seen, (db + t + wk.tx)[k].inv) by {
        if k in wk.tx {} else {
          assert Evolves(db[k], (db + t)[k]);
          InvEvolvesTransitive(seen, db[k].inv, (db + t)[k].inv);
        }
      }
    }
  }

  lemma MadeStable(db: Db, t: Db, wk: Worker)
    requires DecideTx(db, wk.tx, wk.made)
    requires forall k | k in t :: k !in wk.tx
    ensures DecideTx(db + t, wk.tx, wk.made)
  {
    forall j | 0 <= j < |wk.made| ensures MadeRow(db + t, wk.tx, wk.made[j]) {
      assert MadeRow(db, wk.tx, wk.made[j]);
    }
  }

  lemma PrefixStable(db: Db, t: Db, wk: Worker, ds: seq<Decision>, n: nat)
    requires DbOk(db) && DbEvolves(db, db + t)
    requires forall k | k in t :: k !in wk.tx
    requires HonouredPrefix(db + wk.tx, ds, n)
    ensures HonouredPrefix(db + t + wk.tx, ds, n)
  {
    forall j | 0 <= j < n ensures Honoured(db + t + wk.tx, ds[j]) {
      var k := KeyOf(ds[j].call);
      assert Honoured(db + wk.tx, ds[j]);
      if k !in wk.tx { HonouredStable(db + wk.tx, db + t + wk.tx, ds[j]); }
    }
  }

  lemma EventStable(a: Db, b: Db, log: seq<Event>, more: seq<Event>, i: nat)
    requires DbOk(a) && DbEvolves(a, b) && i < |log| && EventOk(a, log, i)
    ensures EventOk(b, log + more, i)
  {
    hide Canonical, JsonObject, DecisionMatches;
    match log[i]
    case HandedOut(k, c) =>
      if Settling(b[k].approval) {
        var m :| 0 <= m < i && log[m].Decided? && log[m].k == k;
        assert (log + more)[m] == log[m];
      }
    case Recorded(ds) =>
      forall j | 0 <= j < |ds| ensures Honoured(b, ds[j]) { HonouredStable(a, b, ds[j]); }
    case _ =>
  }

  lemma BeforeGrows(log: seq<Event>, more: seq<Event>)
    ensures forall k | HandedBefore(log, |log|, k) :: HandedBefore(log + more, |log + more|, k)
    ensures forall k | DecidedBefore(log, |log|, k) :: DecidedBefore(log + more, |log + more|, k)
  {
    var all := log + more;
    forall k | HandedBefore(log, |log|, k) ensures HandedBefore(all, |all|, k) {
      var m :| 0 <= m < |log| && log[m].HandedOut? && log[m].k == k;
      assert all[m] == log[m];
    }
    forall k | DecidedBefore(log, |log|, k) ensures DecidedBefore(all, |all|, k) {
      var m :| 0 <= m < |log| && log[m].Decided? && log[m].k == k;
      assert all[m] == log[m];
    }
  }

  predicate IsAnswer(e: Event) { e.Replied? || e.Refused? }

  lemma LogKeepsAnswers(db: Db, log: seq<Event>, more: seq<Event>)
    requires DbOk(db) && LogOk(db, log)
    requires forall i | 0 <= i < |more| :: IsAnswer(more[i])
    ensures LogOk(db, log + more)
  {
    var all := log + more;
    EvolvesReflexive(db);
    BeforeGrows(log, more);
    forall i | 0 <= i < |all| ensures EventOk(db, all, i) {
      if i < |log| { EventStable(db, db, log, more, i); } else { assert all[i] == more[i - |log|]; }
    }
    forall i, j | 0 <= i < j < |all| ensures !SameOneShot(all[i], all[j]) {
      if j >= |log| { assert all[j] == more[j - |log|]; }
    }
  }

  /** A statement that commits nothing. */
  lemma QuietStep(s: State, w: nat, wk: Worker, answers: seq<Event>)
    requires Inv(s) && JobOk(s.db, wk)
    requires forall k | k in wk.tx :: k in WorkerOf(s, w).tx || !Blocked(s, w, k)
    requires forall i | 0 <= i < |answers| :: IsAnswer(answers[i])
    ensures Inv(Perform(s, w, Quiet(wk, answers)))
  {
    LogKeepsAnswers(s.db, s.log, answers);
    ApartKept(s, w, wk);
  }

  lemma ApartKept(s: State, w: nat, wk: Worker)
    requires Apart(s.workers)
    requires forall k | k in wk.tx :: k in WorkerOf(s, w).tx || !Blocked(s, w, k)
    ensures Apart(s.workers[w := wk])
  {
  }

  /** A commit of rows that belong to this worker. */
  lemma CommitStep(s: State, w: nat, t: Db, wk: Worker, events: seq<Event>)
    requires Inv(s) && wk.tx == map[] && JobOk(s.db + t, wk)
    requires forall k | k in t :: k in WorkerOf(s, w).tx || !Blocked(s, w, k)
    requires DbOk(s.db + t) && DbEvolves(s.db, s.db + t)
    requires LogOk(s.db + t, s.log + events)
    ensures Inv(State(s.db + t, s.workers[w := wk], s.log + events))
  {
    var workers := s.workers[w := wk];
    ApartKept(s, w, wk);
    forall v | v in workers ensures JobOk(s.db + t, workers[v]) {
      if v != w {
        forall k | k in t ensures k !in s.workers[v].tx {
          if k in s.workers[v].tx { assert Blocked(s, w, k); }
        }
        JobStable(s.db, t, s.workers[v]);
      }
    }
  }

  /** The log facts that one commit brings, given that it repeats no one-shot event. */
  lemma LogGrows(a: Db, b: Db, log: seq<Event>, more: seq<Event>)
    requires DbOk(a) && DbEvolves(a, b) && LogOk(a, log)
    requires forall n | |log| <= n < |log + more| :: EventOk(b, log + more, n)
    requires OneShot(more)
    requires forall i, j | 0 <= i < |log| && 0 <= j < |more| :: !SameOneShot(log[i], more[j])
    requires forall k | k in b && Started(b[k].inv.status) && !(k in a && Started(a[k].inv.status)) ::
               exists m | 0 <= m < |more| :: more[m].HandedOut? && more[m].k == k
    requires forall k | k in b && Settling(b[k].approval) && !(k in a && Settling(a[k].approval)) ::
               exists m | 0 <= m < |more| :: more[m].Decided? && more[m].k == k
    ensures LogOk(b, log + more)
  {
    var all := log + more;
    BeforeGrows(log, more);
    forall i | 0 <= i < |all| ensures EventOk(b, all, i) {
      if i < |log| { EventStable(a, b, log, more, i); }
    }
    forall i, j | 0 <= i < j < |all| ensures !SameOneShot(all[i], all[j]) {
      if j < |log| { assert all[i] == log[i] && all[j] == log[j]; }
      else if i < |log| { assert all[i] == log[i] && all[j] == more[j - |log|]; }
      else { assert all[i] == more[i - |log|] && all[j] == more[j - |log|]; }
    }
    forall k | k in b && Started(b[k].inv.status) ensures HandedBefore(all, |all|, k) {
      if !(k in a && Started(a[k].inv.status)) {
        var m :| 0 <= m < |more| && more[m].HandedOut? && more[m].k == k;
        assert all[|log| + m] == more[m];
      }
    }
    forall k | k in b && Settling(b[k].approval) ensures DecidedBefore(all, |all|, k) {
      if !(k in a && Settling(a[k].approval)) {
        var m :| 0 <= m < |more| && more[m].Decided? && more[m].k == k;
        assert all[|log| + m] == more[m];
      }
    }
  }

  lemma NewClaimRows(c: Call)
    ensures RowsOk(KeyOf(c), StartRunning(NewRows(c, false)))
    ensures RowsOk(KeyOf(c), WithApproval(NewRows(c, true)))
    ensures EffectiveMatches(NewInvocation(c, false), c)
  {
  }

  /** The private effect of a statement: the worker's own facts hold again, and it wrote no locked key. */
  ghost predicate QuietOk(db: Db, wk: Worker, blocked: bool, m: Move) {
    m.Quiet? ==>
      && JobOk(db, m.wk)
      && (forall k | k in m.wk.tx :: k in wk.tx || (!blocked && k == KeyFor(wk.job)))
      && (forall i | 0 <= i < |m.answers| :: IsAnswer(m.answers[i]))
      && (m.answers != [] ==> m.wk == Resting)
  }

  lemma ClaimReadQuiet(db: Db, w: nat, wk: Worker, c: Call, owners: map<string, string>, blocked: bool)
    requires DbOk(db) && JobOk(db, wk) && wk.job == ClaimRead(c)
    ensures QuietOk(db, wk, blocked, MoveClaimRead(db, w, wk, c, owners, blocked))
  {
    assert db + wk.tx == db;
    assert wk.tx[KeyOf(c) := NewRows(c, false)] == map[KeyOf(c) := NewRows(c, false)];
  }

  lemma ClaimCasQuiet(db: Db, wk: Worker, c: Call, expected: InvocationStatus, blocked: bool)
    requires DbOk(db) && JobOk(db, wk) && wk.job == ClaimCas(c, expected)
    ensures QuietOk(db, wk, blocked, MoveClaimCas(db, wk, c, expected, blocked))
  {
    var k, view := KeyOf(c), db + wk.tx;
    if !blocked && k in view && view[k].inv.status == expected {
      assert wk.tx[k := StartRunning(view[k])] == map[k := StartRunning(view[k])];
    }
  }

  /** What the insert leaves for the approval statement. */
  lemma EnsureReadRows(db: Db, tx: Db, rest: seq<Call>)
    requires DbOk(db) && EnsureTx(db, tx) && rest != []
    ensures var k, view := KeyOf(rest[0]), db + tx;
      && !NeedsPromotion(InsertInvocation(view, rest[0], true)[k].inv)
      && JobOk(db, Worker(EnsureApproval(rest), if k in view then tx else tx[k := NewRows(rest[0], true)], []))
  {
    hide Canonical, JsonObject, Evolves;
    var c := rest[0];
    NewClaimRows(c);
    var k := KeyOf(c);
    if k in tx { assert EnsureRow(db, k, tx[k]); } else if k in db { assert RowsOk(k, db[k]); }
  }

  lemma EnsureReadQuiet(db: Db, w: nat, wk: Worker, rest: seq<Call>, owners: map<string, string>, blocked: bool)
    requires DbOk(db) && JobOk(db, wk) && wk.job == EnsureRead(rest)
    ensures QuietOk(db, wk, blocked, MoveEnsureRead(db, w, wk, rest, owners, blocked))
  {
    hide PayloadMatches, InsertInvocation, NeedsPromotion, EnsureTx, EnsureRow, DecideTx, HonouredPrefix,
      EffectiveMatches;
    if rest != [] { EnsureReadRows(db, wk.tx, rest); }
  }

  lemma EnsureApprovalRows(db: Db, tx: Db, k: Key)
    requires DbOk(db) && k in db + tx
    requires forall q | q in tx :: EnsureRow(db, q, if q == k then WithApproval(tx[q]) else tx[q])
    ensures EnsureTx(db, tx[k := WithApproval((db + tx)[k])])
    ensures (db + tx)[k].approval.Some? ==> EnsureTx(db, tx)
  {
    if k in db { ApprovalEvolves(k, db[k]); }
  }

  lemma EnsureApprovalQuiet(db: Db, wk: Worker, rest: seq<Call>, blocked: bool)
    requires DbOk(db) && JobOk(db, wk) && wk.job == EnsureApproval(rest)
    ensures QuietOk(db, wk, blocked, MoveEnsureApproval(db, wk, rest, blocked))
  {
    hide EnsureTx, EnsureRow, WithApproval, DecideTx, HonouredPrefix, EffectiveMatches;
    EnsureApprovalRows(db, wk.tx, KeyOf(rest[0]));
  }

  /** What the insert leaves for the statement that loads the approval. */
  lemma DecideReadRows(db: Db, wk: Worker, ds: seq<Decision>, i: nat, pass: Pass)
    requires DbOk(db) && JobOk(db, wk) && wk.job == DecideRead(ds, i, pass) && i < |ds|
    ensures var c := ds[i].call;
      var k, view := KeyOf(c), db + wk.tx;
      var inv := InsertInvocation(view, c, true)[k].inv;
      && !NeedsPromotion(inv)
      && var tx := if k in view then wk.tx else wk.tx[k := NewRows(c, true)];
         PayloadMatches(inv, c, false) ==> JobOk(db, Worker(DecideLoad(ds, i, pass, inv), tx, wk.made))
  {
    hide DecisionMatches, JsonObject, EffectiveMatches;
    var c := ds[i].call;
    var k, view := KeyOf(c), db + wk.tx;
    if k !in view {
      PrefixInsert(db, wk.tx, ds, i, k, NewRows(c, true));
    } else {
      MadeKeys(db, wk.tx, wk.made);
      assert RowsOk(k, view[k]) by {
        if k in wk.tx { DecideRowOk(db, wk.tx, wk.made, k); }
      }
    }
  }

  lemma DecideReadQuiet(db: Db, w: nat, wk: Worker, ds: seq<Decision>, i: nat, pass: Pass,
                        owners: map<string, string>, blocked: bool)
    requires DbOk(db) && JobOk(db, wk) && wk.job == DecideRead(ds, i, pass)
    ensures QuietOk(db, wk, blocked, MoveDecideRead(db, w, wk, ds, i, pass, owners, blocked))
  {
    hide PayloadMatches, InsertInvocation, NeedsPromotion, EnsureTx, EnsureRow, DecideTx, HonouredPrefix,
      EffectiveMatches, InvEvolves;
    if i < |ds| { DecideReadRows(db, wk, ds, i, pass); }
  }

  lemma MadeKeys(db: Db, tx: Db, made: seq<Decision>)
    requires DecideTx(db, tx, made)
    ensures forall k | k in tx :: k in db
  {
    forall k | k in tx ensures k in db {
      var j :| 0 <= j < |made| && KeyOf(made[j].call) == k;
      assert MadeRow(db, tx, made[j]);
    }
  }

  /** A row of a batch: decided, valid, and reached from the committed one. */
  lemma DecideRowOk(db: Db, tx: Db, made: seq<Decision>, k: Key)
    requires DbOk(db) && DecideTx(db, tx, made) && k in tx
    ensures k in db && RowsOk(k, tx[k]) && Evolves(db[k], tx[k])
    ensures Settling(tx[k].approval) && !Started(tx[k].inv.status)
    ensures exists j :: 0 <= j < |made| && KeyOf(made[j].call) == k
  {
    var j :| 0 <= j < |made| && KeyOf(made[j].call) == k;
    assert MadeRow(db, tx, made[j]);
    DecideEvolves(k, db[k], made[j]);
  }

  lemma PrefixInsert(db: Db, tx: Db, ds: seq<Decision>, n: nat, k: Key, r: Rows)
    requires HonouredPrefix(db + tx, ds, n) && k !in db + tx
    ensures HonouredPrefix(db + tx[k := r], ds, n)
  {
    forall j | 0 <= j < n ensures Honoured(db + tx[k := r], ds[j]) {
      assert Honoured(db + tx, ds[j]);
    }
  }

  lemma DecideLoadQuiet(db: Db, w: nat, wk: Worker, ds: seq<Decision>, i: nat, pass: Pass, seen: Invocation,
                        blocked: bool)
    requires DbOk(db) && JobOk(db, wk) && wk.job == DecideLoad(ds, i, pass, seen)
    ensures QuietOk(db, wk, blocked, MoveDecideLoad(db, w, wk, ds, i, pass, seen))
  {
    hide DecideTx, HonouredPrefix, DecisionMatches, InvEvolves, EnsureTx, RowsOk;
    var k, view := KeyOf(ds[i].call), db + wk.tx;
    if k in view && view[k].approval.Some? {
      LoadedJobs(db, wk, ds, i, pass, seen);
    }
  }

  /** After a successful comparison, or on finding the approval open, the next stage's facts hold. */
  lemma LoadedJobs(db: Db, wk: Worker, ds: seq<Decision>, i: nat, pass: Pass, seen: Invocation)
    requires JobOk(db, wk) && wk.job == DecideLoad(ds, i, pass, seen)
    requires var k, view := KeyOf(ds[i].call), db + wk.tx; k in view && view[k].approval.Some?
    ensures DecisionMatches((db + wk.tx)[KeyOf(ds[i].call)].approval.value, seen, ds[i]) ==>
      JobOk(db, Worker(DecideRead(ds, i + 1, pass), wk.tx, wk.made))
    ensures StatusFor(ds[i].kind).Some? ==> JobOk(db, Worker(DecideCas(ds, i), wk.tx, wk.made))
  {
    hide DecisionMatches, Evolves, EnsureTx;
    var k, view := KeyOf(ds[i].call), db + wk.tx;
    assert k in db;
    if DecisionMatches(view[k].approval.value, seen, ds[i]) { PrefixGrows(view, ds, i, seen); }
  }

  lemma PrefixGrows(view: Db, ds: seq<Decision>, i: nat, seen: Invocation)
    requires i < |ds| && HonouredPrefix(view, ds, i) && AcceptsCall(view, ds[i].call)
    requires view[KeyOf(ds[i].call)].approval.Some?
    requires InvEvolves(seen, view[KeyOf(ds[i].call)].inv)
    requires DecisionMatches(view[KeyOf(ds[i].call)].approval.value, seen, ds[i])
    ensures HonouredPrefix(view, ds, i + 1)
  {
    var r := view[KeyOf(ds[i].call)];
    SeenMatches(r.approval.value, seen, r.inv, ds[i]);
  }

  /** A match found on an earlier reading of the invocation holds of the current one. */
  lemma SeenMatches(a: Approval, seen: Invocation, now: Invocation, d: Decision)
    requires InvEvolves(seen, now) && DecisionMatches(a, seen, d)
    ensures DecisionMatches(a, now, d)
  {
  }

  lemma DecideCasQuiet(db: Db, wk: Worker, ds: seq<Decision>, i: nat, blocked: bool)
    requires DbOk(db) && JobOk(db, wk) && wk.job == DecideCas(ds, i)
    ensures QuietOk(db, wk, blocked, MoveDecideCas(db, wk, ds, i, blocked))
  {
    var k, view := KeyOf(ds[i].call), db + wk.tx;
    if !blocked && Decidable(view[k]) {
      assert k !in wk.tx by { if k in wk.tx { DecideRowOk(db, wk.tx, wk.made, k); } }
      MakeDecision(db, wk, ds, i);
    }
  }

  lemma MakeDecision(db: Db, wk: Worker, ds: seq<Decision>, i: nat)
    requires i < |ds| && HonouredPrefix(db + wk.tx, ds, i) && DecideTx(db, wk.tx, wk.made)
    requires AcceptsCall(db, ds[i].call) && KeyOf(ds[i].call) !in wk.tx
    requires Decidable(db[KeyOf(ds[i].call)]) && StatusFor(ds[i].kind).Some?
    ensures var k := KeyOf(ds[i].call);
      var tx := wk.tx[k := Decide(db[k], ds[i])];
      HonouredPrefix(db + tx, ds, i + 1) && DecideTx(db, tx, wk.made + [ds[i]])
  {
    var d := ds[i];
    var k := KeyOf(d.call);
    var tx, made := wk.tx[k := Decide(db[k], d)], wk.made + [d];
    forall j | 0 <= j < |made| ensures MadeRow(db, tx, made[j]) {
      if j < |wk.made| { assert MadeRow(db, wk.tx, wk.made[j]); }
    }
    forall q | q in tx ensures exists j :: 0 <= j < |made| && KeyOf(made[j].call) == q {
      if q == k { assert made[|wk.made|] == d; }
      else { var j :| 0 <= j < |wk.made| && KeyOf(wk.made[j].call) == q; assert made[j] == wk.made[j]; }
    }
    forall m, n | 0 <= m < n < |made| ensures KeyOf(made[m].call) != KeyOf(made[n].call) {
      if n == |wk.made| { assert MadeRow(db, wk.tx, wk.made[m]); }
    }
    MadeHonoured(db, wk, ds, i, tx);
  }

  lemma MadeHonoured(db: Db, wk: Worker, ds: seq<Decision>, i: nat, tx: Db)
    requires i < |ds| && HonouredPrefix(db + wk.tx, ds, i)
    requires AcceptsCall(db, ds[i].call) && KeyOf(ds[i].call) !in wk.tx
    requires Decidable(db[KeyOf(ds[i].call)]) && StatusFor(ds[i].kind).Some?
    requires tx == wk.tx[KeyOf(ds[i].call) := Decide(db[KeyOf(ds[i].call)], ds[i])]
    ensures HonouredPrefix(db + tx, ds, i + 1)
  {
    hide DecisionMatches, PayloadMatches, Decide, Matched, DecidedBy;
    var d := ds[i];
    var k := KeyOf(d.call);
    DecidedIsHonoured(db[k], d);
    forall j | 0 <= j < i + 1 ensures Honoured(db + tx, ds[j]) {
      if j < i {
        assert Honoured(db + wk.tx, ds[j]);
        if KeyOf(ds[j].call) == k { OpenIsNotHonoured(db + wk.tx, ds[j]); }
        SameRowHonoured(db + wk.tx, db + tx, ds[j]);
      }
    }
  }

  /** An open approval carries no decision. */
  lemma OpenIsNotHonoured(view: Db, d: Decision)
    requires KeyOf(d.call) in view && Decidable(view[KeyOf(d.call)])
    ensures !Honoured(view, d)
  {
    hide Canonical, JsonObject, PayloadMatches;
  }

  lemma SameRowHonoured(a: Db, b: Db, d: Decision)
    requires Honoured(a, d) && KeyOf(d.call) in b && b[KeyOf(d.call)] == a[KeyOf(d.call)]
    ensures Honoured(b, d)
  {
    hide DecisionMatches, PayloadMatches;
  }

  lemma DecidedIsHonoured(r: Rows, d: Decision)
    requires StatusFor(d.kind).Some? && PayloadMatches(r.inv, d.call, false)
    ensures DecidedBy(Decide(r, d), d) && PayloadMatches(Decide(r, d).inv, d.call, false)
  {
    hide Canonical, JsonObject;
  }

  lemma MoveQuiet(db: Db, w: nat, wk: Worker, owners: map<string, string>, blocked: bool)
    requires DbOk(db) && JobOk(db, wk)
    ensures QuietOk(db, wk, blocked, NextMove(db, w, wk, owners, blocked))
  {
    hide InsertInvocation, DecideTx, HonouredPrefix, EnsureTx, PayloadMatches;
    match wk.job
    case ClaimRead(c) => ClaimReadQuiet(db, w, wk, c, owners, blocked);
    case ClaimCas(c, expected) => ClaimCasQuiet(db, wk, c, expected, blocked);
    case EnsureRead(rest) => EnsureReadQuiet(db, w, wk, rest, owners, blocked);
    case EnsureApproval(rest) => EnsureApprovalQuiet(db, wk, rest, blocked);
    case DecideRead(ds, i, pass) => DecideReadQuiet(db, w, wk, ds, i, pass, owners, blocked);
    case DecideLoad(ds, i, pass, seen) => DecideLoadQuiet(db, w, wk, ds, i, pass, seen, blocked);
    case DecideCas(ds, i) => DecideCasQuiet(db, wk, ds, i, blocked);
    case _ =>
  }

  // ---- Commits -----------------------------------------------------------------------------

  lemma ClaimCommitKeeps(s: State, w: nat, c: Call)
    requires Inv(s) && WorkerOf(s, w).job == ClaimCommit(c)
    ensures Inv(Perform(s, w, Publish(Executing(c), [HandedOut(KeyOf(c), c)])))
    ensures DbEvolves(s.db, s.db + WorkerOf(s, w).tx)
  {
    hide EffectiveMatches, RowsOk, Evolves, LogOk;
    var k := KeyOf(c);
    var t := WorkerOf(s, w).tx;
    var b := s.db + t;
    assert JobOk(s.db, WorkerOf(s, w));
    ClaimRowOk(s.db, WorkerOf(s, w), c);
    HandOutLog(s.db, b, s.log, c);
    CommitStep(s, w, t, Worker(Executing(c), map[], []), [HandedOut(k, c)]);
  }

  lemma ClaimRowOk(db: Db, wk: Worker, c: Call)
    requires DbOk(db) && JobOk(db, wk) && wk.job == ClaimCommit(c)
    ensures DbOk(db + wk.tx) && DbEvolves(db, db + wk.tx) && KeyOf(c) in db + wk.tx
    ensures (db + wk.tx)[KeyOf(c)].inv.status == Running && EffectiveMatches((db + wk.tx)[KeyOf(c)].inv, c)
    ensures forall q | q in db + wk.tx && q != KeyOf(c) :: q in db && (db + wk.tx)[q] == db[q]
    ensures KeyOf(c) in db ==> db[KeyOf(c)].inv.status == Approved
    ensures KeyOf(c) in db ==> db[KeyOf(c)].approval == (db + wk.tx)[KeyOf(c)].approval
    ensures KeyOf(c) !in db ==> (db + wk.tx)[KeyOf(c)].approval.None?
  {
    hide Canonical, JsonObject;
    var k := KeyOf(c);
    NewClaimRows(c);
    if k in db { StartEvolves(k, db[k]); }
  }

  lemma HandOutLog(a: Db, b: Db, log: seq<Event>, c: Call)
    requires DbOk(a) && DbEvolves(a, b) && LogOk(a, log)
    requires var k := KeyOf(c);
      && k in b && b[k].inv.status == Running && EffectiveMatches(b[k].inv, c)
      && (forall q | q in b && q != k :: q in a && b[q] == a[q])
      && (k in a ==> a[k].inv.status == Approved && a[k].approval == b[k].approval)
      && (k !in a ==> b[k].approval.None?)
    ensures LogOk(b, log + [HandedOut(KeyOf(c), c)])
  {
    var k := KeyOf(c);
    var more := [HandedOut(k, c)];
    forall i | 0 <= i < |log| ensures !SameOneShot(log[i], more[0]) {
      assert EventOk(a, log, i);
    }
    assert EventOk(b, log + more, |log|) by {
      assert (log + more)[|log|] == more[0];
      if Settling(b[k].approval) {
        var m :| 0 <= m < |log| && log[m].Decided? && log[m].k == k;
        assert (log + more)[m] == log[m];
      }
    }
    assert more[0].HandedOut? && more[0].k == k;
    LogGrows(a, b, log, more);
  }

  lemma EndHandlerKeeps(s: State, w: nat, e: Ending)
    requires Inv(s)
    ensures Inv(EndHandler(s, w, e)) && DbEvolves(s.db, EndHandler(s, w, e).db)
  {
    hide Finish, RowsOk, Evolves, LogOk, OneShot;
    EvolvesReflexive(s.db);
    var job := WorkerOf(s, w).job;
    if job.Executing? && !Blocked(s, w, KeyOf(job.c)) && KeyOf(job.c) in s.db {
      var k := KeyOf(job.c);
      var t := map[k := Finish(s.db[k], e)];
      assert s.db + t == s.db[k := Finish(s.db[k], e)];
      assert s.log + [] == s.log;
      FinishRows(s.db, k, e);
      FinishLog(s.db, k, s.log, e);
      CommitStep(s, w, t, Resting, []);
    }
  }

  lemma FinishLog(db: Db, k: Key, log: seq<Event>, e: Ending)
    requires DbOk(db) && LogOk(db, log) && k in db
    ensures LogOk(db[k := Finish(db[k], e)], log)
  {
    FinishRows(db, k, e);
    assert log + [] == log;
    LogGrows(db, db[k := Finish(db[k], e)], log, []);
  }

  lemma EnsureCommits(s: State, w: nat, rest: seq<Call>)
    requires Inv(s) && WorkerOf(s, w).job == EnsureRead(rest)
    ensures Inv(Perform(s, w, Publish(Idle, [])))
    ensures DbEvolves(s.db, s.db + WorkerOf(s, w).tx)
  {
    var t := WorkerOf(s, w).tx;
    assert JobOk(s.db, WorkerOf(s, w));
    EnsureRowsOk(s.db, t);
    LogGrows(s.db, s.db + t, s.log, []);
    CommitStep(s, w, t, Resting, []);
  }

  lemma EnsureRowsOk(db: Db, t: Db)
    requires DbOk(db) && EnsureTx(db, t)
    ensures DbOk(db + t) && DbEvolves(db, db + t)
    ensures forall k | k in db + t && Started((db + t)[k].inv.status) :: k in db && Started(db[k].inv.status)
    ensures forall k | k in db + t && Settling((db + t)[k].approval) :: k in db && Settling(db[k].approval)
  {
    hide JsonObject, Canonical, InvEvolves;
    forall k | k in db + t ensures RowsOk(k, (db + t)[k]) && (k in db ==> Evolves(db[k], (db + t)[k])) {
      if k in db { ApprovalEvolves(k, db[k]); }
    }
  }

  lemma DecideCommits(s: State, w: nat, ds: seq<Decision>, i: nat, pass: Pass)
    requires Inv(s) && WorkerOf(s, w).job == DecideRead(ds, i, pass) && i >= |ds|
    ensures Inv(Perform(s, w, Publish(Idle, DecidedEvents(WorkerOf(s, w).made) + [Recorded(ds)])))
    ensures DbEvolves(s.db, s.db + WorkerOf(s, w).tx)
  {
    var t, made := WorkerOf(s, w).tx, WorkerOf(s, w).made;
    assert JobOk(s.db, WorkerOf(s, w));
    var more := DecidedEvents(made) + [Recorded(ds)];
    DecideRowsOk(s.db, t, made);
    DecideLog(s.db, t, made, s.log, ds);
    CommitStep(s, w, t, Resting, more);
  }

  lemma DecideRowsOk(db: Db, t: Db, made: seq<Decision>)
    requires DbOk(db) && DecideTx(db, t, made)
    ensures DbOk(db + t) && DbEvolves(db, db + t)
  {
    forall k | k in db + t ensures RowsOk(k, (db + t)[k]) && (k in db ==> Evolves(db[k], (db + t)[k])) {
      if k in t { DecideRowOk(db, t, made, k); }
    }
  }

  lemma DecideLog(db: Db, t: Db, made: seq<Decision>, log: seq<Event>, ds: seq<Decision>)
    requires DbOk(db) && DecideTx(db, t, made) && LogOk(db, log) && HonouredPrefix(db + t, ds, |ds|)
    ensures LogOk(db + t, log + (DecidedEvents(made) + [Recorded(ds)]))
  {
    DecideRowsOk(db, t, made);
    DecideEvents(db, t, made, log, ds);
    DecideNews(db, t, made, ds);
    LogGrows(db, db + t, log, DecidedEvents(made) + [Recorded(ds)]);
  }

  /** A batch starts nothing, and every approval it settles is announced. */
  lemma DecideNews(db: Db, t: Db, made: seq<Decision>, ds: seq<Decision>)
    requires DbOk(db) && DecideTx(db, t, made)
    ensures var b, more := db + t, DecidedEvents(made) + [Recorded(ds)];
      && (forall k | k in b && Started(b[k].inv.status) :: k in db && Started(db[k].inv.status))
      && (forall k | k in b && Settling(b[k].approval) && !(k in db && Settling(db[k].approval)) ::
            exists m | 0 <= m < |more| :: more[m].Decided? && more[m].k == k)
  {
    hide DecisionMatches, Canonical, JsonObject, RowsOk, Evolves, MadeRow;
    var b, more := db + t, DecidedEvents(made) + [Recorded(ds)];
    forall k | k in b && Settling(b[k].approval) && !(k in db && Settling(db[k].approval))
      ensures exists m | 0 <= m < |more| :: more[m].Decided? && more[m].k == k
    {
      var j :| 0 <= j < |made| && KeyOf(made[j].call) == k;
      assert more[j] == Decided(k, made[j]);
    }
    forall k | k in b && Started(b[k].inv.status) ensures k in db && Started(db[k].inv.status) {
      if k in t { DecideRowOk(db, t, made, k); }
    }
  }

  lemma DecideEvents(db: Db, t: Db, made: seq<Decision>, log: seq<Event>, ds: seq<Decision>)
    requires DecideTx(db, t, made) && LogOk(db, log) && HonouredPrefix(db + t, ds, |ds|)
    ensures var more := DecidedEvents(made) + [Recorded(ds)];
      && OneShot(more)
      && (forall n | |log| <= n < |log + more| :: EventOk(db + t, log + more, n))
      && (forall m, n | 0 <= m < |log| && 0 <= n < |more| :: !SameOneShot(log[m], more[n]))
  {
    hide DecideTx, LogOk, EventOk, HonouredPrefix;
    var more := DecidedEvents(made) + [Recorded(ds)];
    MadeOneShot(db, t, made, ds);
    forall n | |log| <= n < |log + more| ensures EventOk(db + t, log + more, n) {
      assert (log + more)[n] == more[n - |log|];
      if n - |log| < |made| { MadeEvent(db, t, made, n - |log|, log + more, n); }
      else { RecordedEvent(db + t, log + more, n, ds); }
    }
    forall m, n | 0 <= m < |log| && 0 <= n < |more| ensures !SameOneShot(log[m], more[n]) {
      if n < |made| { MadeIsNew(db, t, made, n, log, m); }
    }
  }

  lemma MadeOneShot(db: Db, t: Db, made: seq<Decision>, ds: seq<Decision>)
    requires DecideTx(db, t, made)
    ensures OneShot(DecidedEvents(made) + [Recorded(ds)])
  {
  }

  lemma RecordedEvent(db: Db, log: seq<Event>, n: nat, ds: seq<Decision>)
    requires n < |log| && log[n] == Recorded(ds) && HonouredPrefix(db, ds, |ds|)
    ensures EventOk(db, log, n)
  {
  }

  lemma MadeEvent(db: Db, t: Db, made: seq<Decision>, j: nat, log: seq<Event>, n: nat)
    requires DecideTx(db, t, made) && j < |made|
    requires n < |log| && log[n] == Decided(KeyOf(made[j].call), made[j])
    ensures EventOk(db + t, log, n)
  {
    assert MadeRow(db, t, made[j]);
  }

  lemma MadeIsNew(db: Db, t: Db, made: seq<Decision>, j: nat, log: seq<Event>, m: nat)
    requires DecideTx(db, t, made) && j < |made| && LogOk(db, log) && m < |log|
    ensures !SameOneShot(log[m], Decided(KeyOf(made[j].call), made[j]))
  {
    assert EventOk(db, log, m);
    assert MadeRow(db, t, made[j]);
  }

  /** Every action of every worker keeps the invariant, and only ever moves committed rows forward. */
  lemma ApplyKeeps(s: State, w: nat, a: Action)
    requires Inv(s)
    ensures Inv(Apply(s, w, a)) && DbEvolves(s.db, Apply(s, w, a).db)
  {
    hide JobOk, NextMove, LogOk, Apart;
    EvolvesReflexive(s.db);
    var wk := WorkerOf(s, w);
    match a
    case BeginClaim(c) => if wk.job == Idle { QuietStep(s, w, Worker(ClaimRead(c), map[], []), []); }
    case BeginEnsure(calls) => if wk.job == Idle { QuietStep(s, w, Worker(EnsureRead(calls), map[], []), []); }
    case BeginDecide(ds) => if wk.job == Idle { QuietStep(s, w, Worker(DecideRead(ds, 0, First), map[], []), []); }
    case Abort => QuietStep(s, w, Resting, []);
    case HandlerEnds(e) => EndHandlerKeeps(s, w, e);
    case Step(owners) => StepKeeps(s, w, owners);
  }

  lemma StepKeeps(s: State, w: nat, owners: map<string, string>)
    requires Inv(s)
    ensures Inv(Apply(s, w, Step(owners))) && DbEvolves(s.db, Apply(s, w, Step(owners)).db)
  {
    hide Inv, JobOk, NextMove, KeyFor, Blocked, DbOk, DbEvolves, IsPublication;
    EvolvesReflexive(s.db);
    var wk := WorkerOf(s, w);
    var blocked := Blocked(s, w, KeyFor(wk.job));
    var m := NextMove(s.db, w, wk, owners, blocked);
    WorkerJobOk(s, w);
    if m.Quiet? {
      MoveQuiet(s.db, w, wk, owners, blocked);
      QuietStep(s, w, m.wk, m.answers);
    }
    if m.Publish? {
      PublishKinds(s.db, w, wk, owners, blocked);
      PublishKeeps(s, w, m);
    }
  }

  lemma WorkerJobOk(s: State, w: nat)
    requires Inv(s)
    ensures DbOk(s.db) && JobOk(s.db, WorkerOf(s, w))
  {
  }

  ghost predicate IsPublication(wk: Worker, m: Move) {
    m.Publish? &&
    match wk.job
    case ClaimRead(c) => m == Publish(ClaimReread(c), []) && wk.tx == map[]
    case ClaimCommit(c) => m == Publish(Executing(c), [HandedOut(KeyOf(c), c)])
    case EnsureRead(rest) => m == Publish(Idle, [])
    case DecideRead(ds, i, pass) => i >= |ds| && m == Publish(Idle, DecidedEvents(wk.made) + [Recorded(ds)])
    case _ => false
  }

  lemma PublishKeeps(s: State, w: nat, m: Move)
    requires Inv(s) && IsPublication(WorkerOf(s, w), m)
    ensures Inv(Perform(s, w, m)) && DbEvolves(s.db, Perform(s, w, m).db)
  {
    hide Inv, DbEvolves, DbOk, HonouredPrefix, DecideTx;
    EvolvesReflexive(s.db);
    var wk := WorkerOf(s, w);
    match wk.job
    case ClaimRead(c) =>
      assert s.db + wk.tx == s.db;
      QuietStep(s, w, Worker(ClaimReread(c), map[], []), []);
    case ClaimCommit(c) => ClaimCommitKeeps(s, w, c);
    case EnsureRead(rest) => EnsureCommits(s, w, rest);
    case DecideRead(ds, i, pass) => DecideCommits(s, w, ds, i, pass);
  }

  /** Which statements commit, and what they announce. */
  lemma PublishKinds(db: Db, w: nat, wk: Worker, owners: map<string, string>, blocked: bool)
    requires JobOk(db, wk)
    ensures NextMove(db, w, wk, owners, blocked).Publish? ==> IsPublication(wk, NextMove(db, w, wk, owners, blocked))
  {
    hide PayloadMatches, EffectiveMatches, InsertInvocation, DecisionMatches, DecideTx, HonouredPrefix, EnsureTx,
      JsonObject;
  }
}
