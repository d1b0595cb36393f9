/** The service's entry points as one session runs them, each in a transaction of its own. */
module ToolStore {
  import opened Values
  import opened ToolRows

  datatype Outcome<+T> = Ok(value: T) | Err(error: Error)

  function ErrorOf<T>(o: Outcome<T>): Option<Error> { if o.Ok? then None else Some(o.error) }

  /** `_ensure_invocation`. */
  function Ensured(view: Db, owners: map<string, string>, c: Call, approvalRequired: bool,
                   allowEffective: bool): Outcome<Db> {
    var refusal := Refusal(c, owners);
    if refusal.Some? then Err(refusal.value)
    else
      var k, v := KeyOf(c), InsertInvocation(view, c, approvalRequired);
      if !PayloadMatches(v[k].inv, c, allowEffective) then Err(InvocationConflict)
      else if approvalRequired && NeedsPromotion(v[k].inv) then Ok(v[k := Promote(v[k])])
      else Ok(v)
  }

  /** One turn of the loop in `ensure_pending_approvals`. */
  function PendOne(view: Db, owners: map<string, string>, c: Call): Outcome<Db> {
    var r := Ensured(view, owners, c, true, false);
    if r.Err? then r else Ok(r.value[KeyOf(c) := WithApproval(r.value[KeyOf(c)])])
  }

  function PendAll(view: Db, owners: map<string, string>, calls: seq<Call>): Outcome<Db>
    decreases |calls|
  {
    if calls == [] then Ok(view)
    else
      var r := PendAll(view, owners, calls[..|calls| - 1]);
      if r.Err? then r else PendOne(r.value, owners, calls[|calls| - 1])
  }

  datatype Progress = Continue(view: Db) | Race | Stop(error: Error)

  /** One turn of the first loop in `record_approval_decisions`. */
  function RecordOne(view: Db, owners: map<string, string>, d: Decision): Progress {
    var e := Ensured(view, owners, d.call, true, false);
    if e.Err? then Stop(e.error)
    else
      var k := KeyOf(d.call);
      var r := e.value[k];
      if r.approval.None? then Stop(ApprovalConflict)
      else if r.approval.value.status != Awaiting then
        if DecisionMatches(r.approval.value, r.inv, d) then Continue(e.value) else Stop(ApprovalConflict)
      else if StatusFor(d.kind).None? then Stop(ApprovalConflict)
      else if Decidable(r) then Continue(e.value[k := Decide(r, d)])
      else Race
  }

  function RecordAll(view: Db, owners: map<string, string>, ds: seq<Decision>): Progress
    decreases |ds|
  {
    if ds == [] then Continue(view)
    else
      var p := RecordAll(view, owners, ds[..|ds| - 1]);
      if p.Continue? then RecordOne(p.view, owners, ds[|ds| - 1]) else p
  }

  /** One turn of the second loop: only an exact match passes. */
  function CheckOne(view: Db, owners: map<string, string>, d: Decision): Outcome<Db> {
    var e := Ensured(view, owners, d.call, true, false);
    if e.Err? then e
    else
      var r := e.value[KeyOf(d.call)];
      if r.approval.Some? && DecisionMatches(r.approval.value, r.inv, d) then e else Err(ApprovalConflict)
  }

  function CheckAll(view: Db, owners: map<string, string>, ds: seq<Decision>): Outcome<Db>
    decreases |ds|
  {
    if ds == [] then Ok(view)
    else
      var r := CheckAll(view, owners, ds[..|ds| - 1]);
      if r.Err? then r else CheckOne(r.value, owners, ds[|ds| - 1])
  }

  datatype Claim = Claim(key: Key, tool: string, status: InvocationStatus, shouldExecute: bool, output: Value,
                         error: Option<string>)

  function Snapshot(k: Key, inv: Invocation, shouldExecute: bool): Claim {
    Claim(k, inv.effectiveToolName, inv.status, shouldExecute, inv.output, inv.error)
  }

  /** `claim_tool_invocation` without a competing claim in between. */
  function Claimed(db: Db, owners: map<string, string>, c: Call): Outcome<(Db, Claim)> {
    var e := Ensured(db, owners, c, false, true);
    if e.Err? then Err(e.error)
    else
      var k := KeyOf(c);
      var r := e.value[k];
      if !EffectiveMatches(r.inv, c) then Err(InvocationConflict)
      else if r.inv.status != Pending && r.inv.status != Approved then Ok((e.value, Snapshot(k, r.inv, false)))
      else Ok((e.value[k := StartRunning(r)], Snapshot(k, StartRunning(r).inv, true)))
  }

  // ---- Retries -----------------------------------------------------------------------------

  /** A new or stored row, as the statement finds it. */
  lemma FoundRow(view: Db, c: Call, approvalRequired: bool)
    requires DbOk(view)
    ensures var r := InsertInvocation(view, c, approvalRequired)[KeyOf(c)];
      Unedited(r.inv) || Rank(r.inv.status) >= 2
    ensures KeyOf(c) in view ==> !NeedsPromotion(view[KeyOf(c)].inv)
  {
    hide JsonObject;
    if KeyOf(c) in view { assert RowsOk(KeyOf(c), view[KeyOf(c)]); }
  }

  /** An identical retry of an accepted call never hits the payload conflict, whatever was committed since. */
  lemma RetryIsAccepted(view: Db, owners: map<string, string>, c: Call, approvalRequired: bool, allowEffective: bool,
                        later: Db)
    requires DbOk(view) && DbOk(later) && Ensured(view, owners, c, approvalRequired, allowEffective).Ok?
    requires DbEvolves(Ensured(view, owners, c, approvalRequired, allowEffective).value, later)
    ensures Ensured(later, owners, c, approvalRequired, allowEffective) == Ok(later)
  {
    hide Refusal, PayloadMatches, JsonObject;
    var k, v := KeyOf(c), Ensured(view, owners, c, approvalRequired, allowEffective).value;
    FoundRow(view, c, approvalRequired);
    FoundRow(later, c, approvalRequired);
    assert k in later && Evolves(v[k], later[k]);
    PromotedPayload(InsertInvocation(view, c, approvalRequired)[k], c, allowEffective);
    PayloadIsStable(v[k].inv, later[k].inv, c, allowEffective);
  }

  lemma PromotedPayload(r: Rows, c: Call, allowEffective: bool)
    requires PayloadMatches(r.inv, c, allowEffective)
    ensures PayloadMatches(Promote(r).inv, c, allowEffective)
    ensures Unedited(r.inv) ==> Unedited(Promote(r).inv)
  {
    hide Canonical, JsonObject;
  }

  // ---- Asking ------------------------------------------------------------------------------

  /** The call has its own invocation row and an approval row. */
  predicate Asked(db: Db, owners: map<string, string>, c: Call) {
    Refusal(c, owners).None? && AcceptsCall(db, c) && db[KeyOf(c)].approval.Some?
  }

  ghost predicate AllAsked(db: Db, owners: map<string, string>, calls: seq<Call>) {
    forall i | 0 <= i < |calls| :: Asked(db, owners, calls[i])
  }

  lemma NewApprovalRows(c: Call)
    ensures RowsOk(KeyOf(c), WithApproval(NewRows(c, true)))
  {
  }

  /** An accepted call has its row, which is the stored one if there was one. */
  lemma EnsuredRow(view: Db, owners: map<string, string>, c: Call)
    requires DbOk(view) && Ensured(view, owners, c, true, false).Ok?
    ensures var v, k := Ensured(view, owners, c, true, false).value, KeyOf(c);
      && Refusal(c, owners).None? && k in v && PayloadMatches(v[k].inv, c, false)
      && (if k in view then v == view else v == view[k := NewRows(c, true)])
  {
    hide Refusal, JsonObject, Canonical;
    var k := KeyOf(c);
    if k in view { assert RowsOk(k, view[k]); }
  }

  lemma PendOneOk(view: Db, owners: map<string, string>, c: Call)
    requires DbOk(view) && PendOne(view, owners, c).Ok?
    ensures var v := PendOne(view, owners, c).value;
      DbOk(v) && DbEvolves(view, v) && Asked(v, owners, c)
  {
    hide Refusal, JsonObject, Canonical, Evolves, Ensured;
    var k := KeyOf(c);
    EnsuredRow(view, owners, c);
    EvolvesReflexive(view);
    if k in view { ApprovalEvolves(k, view[k]); } else { NewApprovalRows(c); }
  }

  lemma AskedStable(a: Db, b: Db, owners: map<string, string>, c: Call)
    requires DbOk(a) && DbEvolves(a, b) && Asked(a, owners, c)
    ensures Asked(b, owners, c)
  {
    hide Refusal, PayloadMatches;
    var k := KeyOf(c);
    assert RowsOk(k, a[k]) && Evolves(a[k], b[k]);
    PayloadIsStable(a[k].inv, b[k].inv, c, false);
  }

  lemma PendSnoc(base: Db, view: Db, owners: map<string, string>, calls: seq<Call>)
    requires calls != [] && DbOk(base) && DbOk(view) && DbEvolves(base, view)
    requires AllAsked(view, owners, calls[..|calls| - 1])
    requires PendOne(view, owners, calls[|calls| - 1]).Ok?
    ensures var v := PendOne(view, owners, calls[|calls| - 1]).value;
      DbOk(v) && DbEvolves(base, v) && AllAsked(v, owners, calls)
  {
    hide PendOne, Asked, RowsOk, Evolves;
    PendOneOk(view, owners, calls[|calls| - 1]);
    var v := PendOne(view, owners, calls[|calls| - 1]).value;
    DbEvolvesTransitive(base, view, v);
    forall i | 0 <= i < |calls| ensures Asked(v, owners, calls[i]) {
      if i < |calls| - 1 {
        assert calls[..|calls| - 1][i] == calls[i];
        AskedStable(view, v, owners, calls[i]);
      }
    }
  }

  lemma {:induction false} PendAllOk(view: Db, owners: map<string, string>, calls: seq<Call>)
    requires DbOk(view) && PendAll(view, owners, calls).Ok?
    ensures var v := PendAll(view, owners, calls).value;
      DbOk(v) && DbEvolves(view, v) && AllAsked(v, owners, calls)
    decreases |calls|
  {
    hide PendOne;
    if calls == [] {
      EvolvesReflexive(view);
    } else {
      var front := calls[..|calls| - 1];
      PendAllOk(view, owners, front);
      PendSnoc(view, PendAll(view, owners, front).value, owners, calls);
    }
  }

  lemma AskedAgain(db: Db, owners: map<string, string>, c: Call)
    requires DbOk(db) && Asked(db, owners, c)
    ensures PendOne(db, owners, c) == Ok(db)
  {
    hide Refusal, PayloadMatches;
    var k := KeyOf(c);
    assert RowsOk(k, db[k]);
    assert db[k := db[k]] == db;
  }

  lemma {:induction false} AskingAllAgain(db: Db, owners: map<string, string>, calls: seq<Call>)
    requires DbOk(db) && AllAsked(db, owners, calls)
    ensures PendAll(db, owners, calls) == Ok(db)
    decreases |calls|
  {
    hide PendOne, Asked;
    if calls != [] {
      var last := calls[|calls| - 1];
      AskingAllAgain(db, owners, calls[..|calls| - 1]);
      assert Asked(db, owners, last);
      AskedAgain(db, owners, last);
    }
  }

  /** `after_model` asks for the same approvals again on every resume: then nothing is refused or changed. */
  lemma AskingAgainIsNoOp(db: Db, owners: map<string, string>, calls: seq<Call>, later: Db)
    requires DbOk(db) && DbOk(later) && PendAll(db, owners, calls).Ok?
    requires DbEvolves(PendAll(db, owners, calls).value, later)
    ensures PendAll(later, owners, calls) == Ok(later)
  {
    hide PendAll, Asked, RowsOk, Evolves;
    PendAllOk(db, owners, calls);
    var asked := PendAll(db, owners, calls).value;
    forall i | 0 <= i < |calls| ensures Asked(later, owners, calls[i]) { AskedStable(asked, later, owners, calls[i]); }
    AskingAllAgain(later, owners, calls);
  }

  // ---- Recording ---------------------------------------------------------------------------

  /** The rows of `d` come from its own call and hold its decision. */
  predicate Carried(db: Db, owners: map<string, string>, d: Decision) {
    Asked(db, owners, d.call) && Honoured(db, d)
  }

  ghost predicate AllCarried(db: Db, owners: map<string, string>, ds: seq<Decision>) {
    forall i | 0 <= i < |ds| :: Carried(db, owners, ds[i])
  }

  lemma RecordOneOk(view: Db, owners: map<string, string>, d: Decision)
    requires DbOk(view) && RecordOne(view, owners, d).Continue?
    ensures var v := RecordOne(view, owners, d).view;
      && DbOk(v) && DbEvolves(view, v) && Carried(v, owners, d)
  {
    hide Ensured, DecisionMatches, Refusal, RowsOk, Evolves, JsonObject, Canonical;
    var k := KeyOf(d.call);
    EnsuredRow(view, owners, d.call);
    assert k in view && RowsOk(k, view[k]);
    EvolvesReflexive(view);
    if Decidable(view[k]) { DecideEvolves(k, view[k], d); }
  }

  lemma CarriedStable(a: Db, b: Db, owners: map<string, string>, d: Decision)
    requires DbOk(a) && DbEvolves(a, b) && Carried(a, owners, d)
    ensures Carried(b, owners, d)
  {
    hide Asked, Honoured, RowsOk, Evolves;
    assert KeyOf(d.call) in a ==> RowsOk(KeyOf(d.call), a[KeyOf(d.call)]);
    AskedStable(a, b, owners, d.call);
    HonouredStable(a, b, d);
  }

  lemma AllCarriedSnoc(a: Db, b: Db, owners: map<string, string>, ds: seq<Decision>)
    requires ds != [] && DbOk(a) && DbEvolves(a, b)
    requires AllCarried(a, owners, ds[..|ds| - 1]) && Carried(b, owners, ds[|ds| - 1])
    ensures AllCarried(b, owners, ds)
  {
    hide Carried;
    forall i | 0 <= i < |ds| ensures Carried(b, owners, ds[i]) {
      if i < |ds| - 1 {
        assert Carried(a, owners, ds[..|ds| - 1][i]);
        CarriedStable(a, b, owners, ds[i]);
      }
    }
  }

  lemma {:induction false} RecordAllOk(view: Db, owners: map<string, string>, ds: seq<Decision>)
    requires DbOk(view) && RecordAll(view, owners, ds).Continue?
    ensures var v := RecordAll(view, owners, ds).view;
      DbOk(v) && DbEvolves(view, v) && AllCarried(v, owners, ds)
    decreases |ds|
  {
    hide RecordOne;
    if ds == [] {
      EvolvesReflexive(view);
    } else {
      var front := ds[..|ds| - 1];
      RecordAllOk(view, owners, front);
      RecordSnoc(view, RecordAll(view, owners, front).view, owners, ds);
    }
  }

  lemma RecordSnoc(view: Db, u: Db, owners: map<string, string>, ds: seq<Decision>)
    requires ds != [] && DbOk(view) && DbOk(u) && DbEvolves(view, u) && AllCarried(u, owners, ds[..|ds| - 1])
    requires RecordOne(u, owners, ds[|ds| - 1]).Continue?
    ensures var v := RecordOne(u, owners, ds[|ds| - 1]).view;
      DbOk(v) && DbEvolves(view, v) && AllCarried(v, owners, ds)
  {
    hide RecordOne;
    RecordOneOk(u, owners, ds[|ds| - 1]);
    var v := RecordOne(u, owners, ds[|ds| - 1]).view;
    DbEvolvesTransitive(view, u, v);
    AllCarriedSnoc(u, v, owners, ds);
  }

  lemma CheckOneOk(view: Db, owners: map<string, string>, d: Decision)
    requires DbOk(view) && CheckOne(view, owners, d).Ok?
    ensures CheckOne(view, owners, d).value == view && Carried(view, owners, d)
  {
    hide Ensured, Refusal, DecisionMatches;
    EnsuredRow(view, owners, d.call);
  }

  lemma {:induction false} CheckAllOk(view: Db, owners: map<string, string>, ds: seq<Decision>)
    requires DbOk(view) && CheckAll(view, owners, ds).Ok?
    ensures CheckAll(view, owners, ds).value == view && AllCarried(view, owners, ds)
    decreases |ds|
  {
    hide CheckOne;
    if ds != [] {
      CheckAllOk(view, owners, ds[..|ds| - 1]);
      CheckSnoc(view, owners, ds);
    }
  }

  lemma CheckSnoc(view: Db, owners: map<string, string>, ds: seq<Decision>)
    requires ds != [] && DbOk(view) && AllCarried(view, owners, ds[..|ds| - 1])
    requires CheckOne(view, owners, ds[|ds| - 1]).Ok?
    ensures CheckOne(view, owners, ds[|ds| - 1]).value == view && AllCarried(view, owners, ds)
  {
    hide CheckOne;
    CheckOneOk(view, owners, ds[|ds| - 1]);
    EvolvesReflexive(view);
    AllCarriedSnoc(view, view, owners, ds);
  }

  /** Rows that carry a repeatable decision compare equal to it. */
  lemma CarriedMatches(db: Db, owners: map<string, string>, d: Decision)
    requires DbOk(db) && Carried(db, owners, d) && Repeatable(d)
    ensures Matched(db, d)
  {
    hide JsonObject, Refusal, PayloadMatches;
    assert RowsOk(KeyOf(d.call), db[KeyOf(d.call)]);
    CanonicalStableIff(d.payload);
    CanonicalStableIff(d.effectiveInput);
  }

  lemma ReplayOne(db: Db, owners: map<string, string>, d: Decision)
    requires DbOk(db) && Carried(db, owners, d) && Repeatable(d)
    ensures RecordOne(db, owners, d) == Continue(db)
  {
    hide Refusal, Repeatable, PayloadMatches;
    CarriedMatches(db, owners, d);
    assert RowsOk(KeyOf(d.call), db[KeyOf(d.call)]);
  }

  lemma {:induction false} ReplayAll(db: Db, owners: map<string, string>, ds: seq<Decision>)
    requires DbOk(db) && AllCarried(db, owners, ds)
    requires forall i | 0 <= i < |ds| :: Repeatable(ds[i])
    ensures RecordAll(db, owners, ds) == Continue(db)
    decreases |ds|
  {
    hide RecordOne, Carried, Repeatable;
    if ds != [] {
      var last := ds[|ds| - 1];
      ReplayAll(db, owners, ds[..|ds| - 1]);
      assert Carried(db, owners, last);
      ReplayOne(db, owners, last);
    }
  }

  /** Replaying a recorded batch succeeds and changes nothing, after any claims, completions or failures. */
  lemma ReplayIsNoOp(db: Db, owners: map<string, string>, ds: seq<Decision>, later: Db)
    requires DbOk(db) && DbOk(later) && RecordAll(db, owners, ds).Continue?
    requires DbEvolves(RecordAll(db, owners, ds).view, later)
    requires forall i | 0 <= i < |ds| :: Repeatable(ds[i])
    ensures RecordAll(later, owners, ds) == Continue(later)
  {
    hide RecordAll, Carried, RowsOk, Evolves, Repeatable;
    RecordAllOk(db, owners, ds);
    var recorded := RecordAll(db, owners, ds).view;
    forall i | 0 <= i < |ds| ensures Carried(later, owners, ds[i]) { CarriedStable(recorded, later, owners, ds[i]); }
    ReplayAll(later, owners, ds);
  }

  // ---- Claiming ----------------------------------------------------------------------------

  lemma ClaimedOk(db: Db, owners: map<string, string>, c: Call)
    requires DbOk(db) && Claimed(db, owners, c).Ok?
    ensures var (v, claim) := Claimed(db, owners, c).value;
      && DbOk(v) && DbEvolves(db, v) && KeyOf(c) in v
      && claim.key == KeyOf(c) && claim.tool == c.tool && claim.status == v[KeyOf(c)].inv.status
      && (claim.shouldExecute ==> v[KeyOf(c)].inv.status == Running)
      && (claim.shouldExecute && KeyOf(c) in db ==> db[KeyOf(c)].inv.status == Approved)
      && (!claim.shouldExecute ==> v == db)
  {
    if KeyOf(c) in db { ClaimedStored(db, owners, c); } else { ClaimedNew(db, owners, c); }
  }

  lemma ClaimedStored(db: Db, owners: map<string, string>, c: Call)
    requires DbOk(db) && Claimed(db, owners, c).Ok? && KeyOf(c) in db
    ensures var (v, claim) := Claimed(db, owners, c).value;
      && DbOk(v) && DbEvolves(db, v) && KeyOf(c) in v
      && claim == Snapshot(KeyOf(c), v[KeyOf(c)].inv, claim.shouldExecute)
      && (if claim.shouldExecute
          then db[KeyOf(c)].inv.status == Approved && v == db[KeyOf(c) := StartRunning(db[KeyOf(c)])]
          else v == db)
      && EffectiveMatches(v[KeyOf(c)].inv, c)
  {
    hide Refusal, Canonical, JsonObject, Evolves;
    var k := KeyOf(c);
    EvolvesReflexive(db);
    assert RowsOk(k, db[k]);
    if db[k].inv.status == Approved { StartEvolves(k, db[k]); }
  }

  lemma ClaimedNew(db: Db, owners: map<string, string>, c: Call)
    requires DbOk(db) && Claimed(db, owners, c).Ok? && KeyOf(c) !in db
    ensures var (v, claim) := Claimed(db, owners, c).value;
      && DbOk(v) && DbEvolves(db, v) && v == db[KeyOf(c) := StartRunning(NewRows(c, false))]
      && claim == Snapshot(KeyOf(c), v[KeyOf(c)].inv, true)
  {
    hide Refusal, Canonical, JsonObject, Evolves;
    EvolvesReflexive(db);
  }

  /** A claim that was handed out is answered from its row ever after: the same call does not execute again. */
  lemma ClaimRetryReports(db: Db, owners: map<string, string>, c: Call, later: Db)
    requires DbOk(db) && DbOk(later) && Claimed(db, owners, c).Ok? && Claimed(db, owners, c).value.1.shouldExecute
    requires DbEvolves(Claimed(db, owners, c).value.0, later)
    ensures KeyOf(c) in later
    ensures Claimed(later, owners, c) == Ok((later, Snapshot(KeyOf(c), later[KeyOf(c)].inv, false)))
  {
    hide Canonical, JsonObject, Refusal;
    ClaimedOk(db, owners, c);
    var k := KeyOf(c);
    assert Evolves(Claimed(db, owners, c).value.0[k], later[k]) && RowsOk(k, later[k]);
  }

  /** The call a decision made effective. */
  function EffectiveCall(d: Decision): Call { d.call.(tool := d.effectiveTool, input := d.effectiveInput) }

  /** After an approval or an edit, the next claim of the effective call is accepted, and runs unless it already ran. */
  lemma ApprovedCallIsAccepted(db: Db, owners: map<string, string>, d: Decision)
    requires DbOk(db) && Carried(db, owners, d) && Repeatable(d) && d.kind in {"approve", "edit"}
    ensures Claimed(db, owners, EffectiveCall(d)).Ok?
    ensures Claimed(db, owners, EffectiveCall(d)).value.1.shouldExecute <==> db[KeyOf(d.call)].inv.status == Approved
  {
    assert RowsOk(KeyOf(d.call), db[KeyOf(d.call)]);
    CanonicalStableIff(d.effectiveInput);
  }

  /** The original arguments are refused exactly when the decision changed the tool or the canonical input. */
  lemma OriginalCallRefusedIff(db: Db, owners: map<string, string>, d: Decision)
    requires DbOk(db) && Carried(db, owners, d) && Repeatable(d)
    ensures Claimed(db, owners, d.call) == Err(InvocationConflict)
      <==> (d.effectiveTool != d.call.tool
            || Canonical(JsonObject(d.effectiveInput)) != Canonical(JsonObject(d.call.input)))
  {
    assert RowsOk(KeyOf(d.call), db[KeyOf(d.call)]);
    CanonicalStableIff(d.effectiveInput);
  }

  // ---- The session -------------------------------------------------------------------------

  /** How `wrap_tool_call` answers. */
  datatype Reply =
    | Ran(ending: Ending)
    | Reused(output: Value, error: Option<string>, failed: bool)
    | Waiting(status: InvocationStatus)
    | Denial(e: Error)
    | Forbidden

  /** The answer for a call that is not executed again: its outcome if it ended, else its status. */
  function Reported(inv: Invocation): Reply {
    if inv.status == Succeeded || inv.status == Failed then Reused(inv.output, inv.error, inv.status == Failed)
    else Waiting(inv.status)
  }

  class Store {
    var db: Db       // committed rows
    var view: Db     // rows as the open transaction sees them
    const owners: map<string, string>

    ghost predicate Valid()
      reads this
    {
      view == db && DbOk(db)
    }

    constructor (owners: map<string, string>)
      ensures Valid() && db == map[] && this.owners == owners
    {
      db, view := map[], map[];
      this.owners := owners;
    }

    method EnsureInvocation(c: Call, approvalRequired: bool, allowEffective: bool) returns (error: Option<Error>)
      modifies this`view
      ensures var r := Ensured(old(view), owners, c, approvalRequired, allowEffective);
        if r.Ok? then error == None && view == r.value else error == Some(r.error)
    {
      error := Refusal(c, owners);
      if error.Some? { return; }
      var k := KeyOf(c);
      view := InsertInvocation(view, c, approvalRequired);
      if !PayloadMatches(view[k].inv, c, allowEffective) { return Some(InvocationConflict); }
      if approvalRequired && NeedsPromotion(view[k].inv) {
        view := view[k := Promote(view[k])];
      }
    }

    method PendNext(c: Call) returns (error: Option<Error>)
      modifies this`view
      ensures var r := PendOne(old(view), owners, c);
        if r.Ok? then error == None && view == r.value else error == Some(r.error)
    {
      error := EnsureInvocation(c, true, false);
      if error.None? { view := view[KeyOf(c) := WithApproval(view[KeyOf(c)])]; }
    }

    method EnsurePendingApprovals(calls: seq<Call>) returns (error: Option<Error>)
      requires Valid()
      modifies this
      ensures Valid() && DbEvolves(old(db), db)
      ensures var r := PendAll(old(db), owners, calls);
        if r.Ok? then error == None && db == r.value else error == Some(r.error) && db == old(db)
      ensures error == None ==> AllAsked(db, owners, calls)
    {
      hide PendOne, Asked, RowsOk, Evolves;
      EvolvesReflexive(db);
      for i := 0 to |calls|
        invariant db == old(db) && DbOk(view) && DbEvolves(db, view)
        invariant PendAll(db, owners, calls[..i]) == Ok(view)
        invariant AllAsked(view, owners, calls[..i])
      {
        ghost var before := view;
        assert calls[..i + 1][..i] == calls[..i];
        error := PendNext(calls[i]);
        if error.Some? {
          PendFails(db, owners, calls, i + 1);
          view := db;
          return;
        }
        PendSnoc(db, before, owners, calls[..i + 1]);
      }
      assert calls[..|calls|] == calls;
      db := view;
      error := None;
    }

    method RecordNext(d: Decision) returns (error: Option<Error>, raced: bool)
      modifies this`view
      ensures match RecordOne(old(view), owners, d)
        case Continue(v) => error == None && !raced && view == v
        case Race => error == None && raced
        case Stop(e) => error == Some(e)
    {
      var k := KeyOf(d.call);
      raced := false;
      error := EnsureInvocation(d.call, true, false);
      if error.Some? { return; }
      var r := view[k];
      if r.approval.None? {
        error := Some(ApprovalConflict);
      } else if r.approval.value.status != Awaiting {
        if !DecisionMatches(r.approval.value, r.inv, d) { error := Some(ApprovalConflict); }
      } else if StatusFor(d.kind).None? {
        error := Some(ApprovalConflict);
      } else if Decidable(r) {
        view := view[k := Decide(r, d)];
      } else {
        raced := true;
      }
    }

    method RecordApprovalDecisions(ds: seq<Decision>) returns (error: Option<Error>)
      requires Valid()
      modifies this
      ensures Valid() && DbEvolves(old(db), db)
      ensures match RecordAll(old(db), owners, ds)
        case Continue(v) => error == None && db == v
        case Stop(e) => error == Some(e) && db == old(db)
        case Race => db == old(db) && error == ErrorOf(CheckAll(old(db), owners, ds))
      ensures error == None ==> AllCarried(db, owners, ds)
    {
      hide RecordOne, CheckOne, CheckAll, Carried, RowsOk, Evolves;
      EvolvesReflexive(db);
      for i := 0 to |ds|
        invariant db == old(db) && RecordAll(db, owners, ds[..i]) == Continue(view)
      {
        assert ds[..i + 1][..i] == ds[..i];
        var raced;
        error, raced := RecordNext(ds[i]);
        if error.Some? || raced {
          RecordFails(db, owners, ds, i + 1);
          view := db;
          if raced && error.None? { error := RecheckDecisions(ds); }
          return;
        }
      }
      assert ds[..|ds|] == ds;
      RecordAllOk(db, owners, ds);
      db := view;
      error := None;
    }

    method CheckNext(d: Decision) returns (error: Option<Error>)
      modifies this`view
      ensures var r := CheckOne(old(view), owners, d);
        if r.Ok? then error == None && view == r.value else error == Some(r.error)
    {
      error := EnsureInvocation(d.call, true, false);
      if error.None? {
        var r := view[KeyOf(d.call)];
        if r.approval.None? || !DecisionMatches(r.approval.value, r.inv, d) { error := Some(ApprovalConflict); }
      }
    }

    /** The second pass after a lost race. */
    method RecheckDecisions(ds: seq<Decision>) returns (error: Option<Error>)
      requires Valid()
      modifies this
      ensures Valid() && db == old(db)
      ensures error == ErrorOf(CheckAll(db, owners, ds))
      ensures error == None ==> AllCarried(db, owners, ds)
    {
      hide RecordOne, CheckOne, Carried, RowsOk;
      for i := 0 to |ds|
        invariant db == old(db) && CheckAll(db, owners, ds[..i]) == Ok(view)
      {
        assert ds[..i + 1][..i] == ds[..i];
        error := CheckNext(ds[i]);
        if error.Some? {
          CheckFails(db, owners, ds, i + 1);
          view := db;
          return;
        }
      }
      assert ds[..|ds|] == ds;
      CheckAllOk(db, owners, ds);
      view := db;
      error := None;
    }

    method ClaimToolInvocation(c: Call) returns (r: Outcome<Claim>)
      requires Valid()
      modifies this
      ensures Valid() && DbEvolves(old(db), db)
      ensures match Claimed(old(db), owners, c)
        case Ok(pair) => db == pair.0 && r == Ok(pair.1)
        case Err(e) => db == old(db) && r == Err(e)
      ensures r.Ok? && r.value.shouldExecute ==> KeyOf(c) in db && db[KeyOf(c)].inv.status == Running
    {
      assert DbEvolves(db, db);
      if Claimed(db, owners, c).Ok? { ClaimedOk(db, owners, c); }
      var k := KeyOf(c);
      var error := EnsureInvocation(c, false, true);
      if error.None? && !EffectiveMatches(view[k].inv, c) { error := Some(InvocationConflict); }
      if error.Some? {
        view := db;
        return Err(error.value);
      }
      if view[k].inv.status != Pending && view[k].inv.status != Approved {
        db := view;
        return Ok(Snapshot(k, view[k].inv, false));
      }
      view := view[k := StartRunning(view[k])];
      db := view;
      r := Ok(Snapshot(k, view[k].inv, true));
    }

    /** complete_tool_invocation and fail_tool_invocation. */
    method EndToolInvocation(claim: Claim, e: Ending)
      requires Valid()
      modifies this
      ensures Valid() && DbEvolves(old(db), db)
      ensures db == if claim.key in old(db) then old(db)[claim.key := Finish(old(db)[claim.key], e)] else old(db)
    {
      if claim.key in db {
        FinishEvolves(claim.key, db[claim.key], e);
        view := view[claim.key := Finish(view[claim.key], e)];
      }
      db := view;
    }

    /** `wrap_tool_call` for an identified user: `permitted` is what `enforce_tool` says before the claim, and `e`
        the way the handler would end. */
    method WrapToolCall(c: Call, permitted: bool, e: Ending) returns (reply: Reply)
      requires Valid()
      modifies this
      ensures Valid() && DbEvolves(old(db), db)
      ensures reply.Forbidden? <==> !permitted
      ensures var claimed := Claimed(old(db), owners, c);
        reply.Ran? <==> (permitted && claimed.Ok? && claimed.value.1.shouldExecute)
      ensures reply.Denial? <==> permitted && Claimed(old(db), owners, c).Err?
      ensures reply.Ran? ==> reply.ending == e && KeyOf(c) in db && db[KeyOf(c)].inv.status in {Succeeded, Failed}
      ensures reply.Ran? ==>
        var claimed := Claimed(old(db), owners, c).value.0;
        KeyOf(c) in claimed && db == claimed[KeyOf(c) := Finish(claimed[KeyOf(c)], e)]
      ensures reply.Denial? ==> Claimed(old(db), owners, c) == Err(reply.e)
      ensures !reply.Ran? ==> db == old(db)
      ensures reply.Reused? || reply.Waiting? ==> KeyOf(c) in db && reply == Reported(db[KeyOf(c)].inv)
    {
      if !permitted {
        EvolvesReflexive(db);
        return Forbidden;
      }
      var r := ClaimToolInvocation(c);
      if Claimed(old(db), owners, c).Ok? { ClaimedOk(old(db), owners, c); }
      if r.Err? { return Denial(r.error); }
      ghost var mid := db;
      var claim := r.value;
      if !claim.shouldExecute {
        if claim.status == Succeeded || claim.status == Failed {
          return Reused(claim.output, claim.error, claim.status == Failed);
        }
        return Waiting(claim.status);
      }
      EndToolInvocation(claim, e);
      DbEvolvesTransitive(old(db), mid, db);
      reply := Ran(e);
    }
  }

  /** A loop that stopped early has the outcome of the whole batch. */
  lemma {:induction false} PendFails(db: Db, owners: map<string, string>, calls: seq<Call>, n: nat)
    requires n <= |calls| && PendAll(db, owners, calls[..n]).Err?
    ensures PendAll(db, owners, calls) == PendAll(db, owners, calls[..n])
    decreases |calls| - n
  {
    if n < |calls| {
      assert calls[..n + 1][..n] == calls[..n];
      PendFails(db, owners, calls, n + 1);
    } else { assert calls[..n] == calls; }
  }

  lemma {:induction false} RecordFails(db: Db, owners: map<string, string>, ds: seq<Decision>, n: nat)
    requires n <= |ds| && !RecordAll(db, owners, ds[..n]).Continue?
    ensures RecordAll(db, owners, ds) == RecordAll(db, owners, ds[..n])
    decreases |ds| - n
  {
    if n < |ds| {
      assert ds[..n + 1][..n] == ds[..n];
      RecordFails(db, owners, ds, n + 1);
    } else { assert ds[..n] == ds; }
  }

  lemma {:induction false} CheckFails(db: Db, owners: map<string, string>, ds: seq<Decision>, n: nat)
    requires n <= |ds| && CheckAll(db, owners, ds[..n]).Err?
    ensures CheckAll(db, owners, ds) == CheckAll(db, owners, ds[..n])
    decreases |ds| - n
  {
    if n < |ds| {
      assert ds[..n + 1][..n] == ds[..n];
      CheckFails(db, owners, ds, n + 1);
    } else { assert ds[..n] == ds; }
  }

  /** A second run of the same call finds the first one's row and does not run the handler again. */
  method CallTwice(store: Store, c: Call, permitted: bool, e: Ending, again: Ending)
    returns (first: Reply, second: Reply)
    requires store.Valid()
    modifies store
    ensures store.Valid()
    ensures first.Ran? ==> second.Reused?
  {
    ghost var before := store.db;
    first := store.WrapToolCall(c, permitted, e);
    if first.Ran? {
      var claimed := Claimed(before, store.owners, c).value.0;
      ClaimedOk(before, store.owners, c);
      FinishRows(claimed, KeyOf(c), e);
      ClaimRetryReports(before, store.owners, c, store.db);
    }
    second := store.WrapToolCall(c, permitted, again);
  }
}
