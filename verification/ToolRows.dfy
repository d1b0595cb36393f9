/** app/services/tool_invocation_service.py: the rows of one tool call and what each statement does to them.

An invocation row and its optional approval row are kept together under their unique key. */
module ToolRows {
  import opened Values
  import opened Tracing

  const TOOL_STATE_PAYLOAD_MAX_CHARS: nat := 200_000

  function JsonObject(v: Value): Value {
    var n := SafeJson(v, TOOL_STATE_PAYLOAD_MAX_CHARS);
    if n.Dict? then n else Dict([Field("value", n)])
  }

  /** `_canonical_json`: the tree its sorted text stands for. */
  function Canonical(v: Value): Json { Canon(JsonObject(v)) }

  /** Storing a payload and reading it back keeps its canonical text, exactly for the settled payloads. */
  lemma CanonicalStableIff(v: Value)
    ensures Canonical(JsonObject(v)) == Canonical(v) <==> Settled(v, TOOL_STATE_PAYLOAD_MAX_CHARS)
  {
    var max := TOOL_STATE_PAYLOAD_MAX_CHARS;
    var n := SafeJson(v, max);
    if Settled(v, max) { SettledIsFixed(v, max); } else { UnsettledChanges(v, max); }
    if !n.Dict? {
      ValueFieldPass(n, max);
      CanonValueField(n);
      CanonValueField(SafeJson(n, max));
    }
  }

  lemma ValueFieldPass(n: Value, max: nat)
    ensures SafeJson(Dict([Field("value", n)]), max) == Dict([Field("value", SafeJson(n, max))])
  {
    SingleField(Field("value", n), max);
    NotSensitive("value");
    assert "base64"[0] == 'b' && "data"[0] == 'd' && "file_data"[0] == 'f' && "value"[0] == 'v';
  }

  lemma CanonValueField(n: Value)
    ensures CanonFields([Field("value", n)]) == map["value" := Canon(n)]
    ensures CanonFields([Field("value", n)])["value"] == Canon(n)
  {
    assert [Field("value", n)][..0] == [];
  }

  // ---- Rows --------------------------------------------------------------------------------

  datatype InvocationStatus = Pending | PendingApproval | Approved | Running | Succeeded | Failed | Rejected

  /** PENDING, APPROVED, EDITED and REJECTED of the approvals table. */
  datatype ApprovalStatus = Awaiting | Granted | Edited | Denied

  datatype Invocation = Invocation(
    threadId: Option<string>,
    callId: string,
    toolName: string,
    effectiveToolName: string,
    requestedInput: Value,
    effectiveInput: Value,
    output: Value,
    error: Option<string>,
    status: InvocationStatus,
    attempts: nat)

  datatype Approval = Approval(status: ApprovalStatus, payload: Value)

  datatype Rows = Rows(inv: Invocation, approval: Option<Approval>)

  /** (user_id, idempotency_key): the digest of user, thread scope and call id, taken to be injective. */
  datatype Key = Key(user: string, scope: string, callId: string)

  type Db = map<Key, Rows>

  /** One tool call as a worker presents it. */
  datatype Call = Call(
    user: string,
    threadId: Option<string>,
    runId: Option<string>,
    callId: string,
    tool: string,
    input: Value)

  datatype Decision = Decision(call: Call, kind: string, effectiveTool: string, effectiveInput: Value, payload: Value)

  datatype Error = InvocationConflict | OwnershipError | ApprovalConflict | InvocationLost

  function Scope(threadId: Option<string>): string {
    if threadId.Some? && threadId.value != "" then threadId.value else "<direct>"
  }

  function KeyOf(c: Call): Key { Key(c.user, Scope(c.threadId), c.callId) }

  /** Why a call is refused before any row is touched; `owners` maps conversation threads to users. */
  function Refusal(c: Call, owners: map<string, string>): Option<Error> {
    if c.threadId.Some? && |c.threadId.value| > 64 then Some(InvocationConflict)
    else if c.runId.Some? && |c.runId.value| > 128 then Some(InvocationConflict)
    else if c.callId == "" || |c.callId| > 255 then Some(InvocationConflict)
    else if c.threadId.Some? && c.threadId.value != "" && c.threadId.value in owners
            && owners[c.threadId.value] != c.user then Some(OwnershipError)
    else None
  }

  // ---- Statements --------------------------------------------------------------------------

  function NewInvocation(c: Call, approvalRequired: bool): Invocation {
    var input := JsonObject(c.input);
    Invocation(c.threadId, c.callId, c.tool, c.tool, input, input, Dict([]), None,
               if approvalRequired then PendingApproval else Pending, 0)
  }

  function NewRows(c: Call, approvalRequired: bool): Rows { Rows(NewInvocation(c, approvalRequired), None) }

  /** INSERT ... ON CONFLICT DO NOTHING on the invocations table. */
  function InsertInvocation(view: Db, c: Call, approvalRequired: bool): Db {
    if KeyOf(c) in view then view else view[KeyOf(c) := NewRows(c, approvalRequired)]
  }

  predicate EffectiveMatches(inv: Invocation, c: Call) {
    inv.effectiveToolName == c.tool && Canonical(inv.effectiveInput) == Canonical(JsonObject(c.input))
  }

  /** Same tool and same canonical input as the stored request. */
  predicate RequestMatches(inv: Invocation, c: Call) {
    inv.toolName == c.tool && Canonical(inv.requestedInput) == Canonical(JsonObject(c.input))
  }

  predicate PayloadMatches(inv: Invocation, c: Call, allowEffective: bool) {
    && inv.threadId == c.threadId
    && inv.callId == c.callId
    && (RequestMatches(inv, c) || (allowEffective && EffectiveMatches(inv, c)))
  }

  predicate NeedsPromotion(inv: Invocation) { inv.status == Pending && inv.attempts == 0 }

  function Promote(r: Rows): Rows { r.(inv := r.inv.(status := PendingApproval)) }

  /** INSERT ... ON CONFLICT DO NOTHING on the approvals table. */
  function WithApproval(r: Rows): Rows {
    if r.approval.Some? then r else r.(approval := Some(Approval(Awaiting, Dict([]))))
  }

  function StatusFor(kind: string): Option<ApprovalStatus> {
    if kind == "approve" then Some(Granted)
    else if kind == "edit" then Some(Edited)
    else if kind == "reject" then Some(Denied)
    else None
  }

  predicate DecisionMatches(approval: Approval, inv: Invocation, d: Decision) {
    && StatusFor(d.kind) == Some(approval.status)
    && Canonical(approval.payload) == Canonical(d.payload)
    && (if approval.status == Denied then inv.status == Rejected
        else inv.status in {Approved, Running, Succeeded, Failed})
    && inv.effectiveToolName == d.effectiveTool
    && Canonical(inv.effectiveInput) == Canonical(d.effectiveInput)
  }

  /** Both guarded updates of `record_approval_decisions` find their row. */
  predicate Decidable(r: Rows) {
    r.approval.Some? && r.approval.value.status == Awaiting && r.inv.status == PendingApproval
  }

  function Decide(r: Rows, d: Decision): Rows
    requires StatusFor(d.kind).Some?
  {
    var status := StatusFor(d.kind).value;
    Rows(
      r.inv.(
        status := if status == Denied then Rejected else Approved,
        effectiveToolName := d.effectiveTool,
        effectiveInput := JsonObject(d.effectiveInput),
        error := if status == Denied then Some("用户拒绝了工具调用") else r.inv.error),
      Some(Approval(status, JsonObject(d.payload))))
  }

  function StartRunning(r: Rows): Rows {
    r.(inv := r.inv.(status := Running, attempts := r.inv.attempts + 1))
  }

  /** How the handler of a claimed call ended. */
  datatype Ending = Returned(output: Value, error: Option<string>) | Raised(message: string)

  /** `complete_tool_invocation` and `fail_tool_invocation`: guarded by RUNNING. */
  function Finish(r: Rows, e: Ending): Rows {
    if r.inv.status != Running then r
    else match e
      case Returned(output, error) =>
        var failed := error.Some? && error.value != "";
        r.(inv := r.inv.(status := if failed then Failed else Succeeded, output := output, error := error))
      case Raised(message) =>
        r.(inv := r.inv.(status := Failed, error := Some(message)))
  }

  // ---- What a row may look like, and what may become of it ---------------------------------

  predicate Started(s: InvocationStatus) { s == Running || s == Succeeded || s == Failed }

  predicate Settling(a: Option<Approval>) { a.Some? && a.value.status != Awaiting }

  predicate Unedited(inv: Invocation) {
    inv.effectiveToolName == inv.toolName && inv.effectiveInput == inv.requestedInput
  }

  /** The joint rule of the two tables for a committed key. */
  predicate RowsOk(k: Key, r: Rows) {
    && r.inv.callId == k.callId && Scope(r.inv.threadId) == k.scope
    && r.inv.attempts == (if Started(r.inv.status) then 1 else 0)
    && r.inv.status != Pending
    && (r.inv.status == PendingApproval ==> r.approval.Some? && r.approval.value.status == Awaiting)
    && (r.inv.status == Approved ==> Settling(r.approval) && r.approval.value.status != Denied)
    && (r.inv.status == Rejected <==> r.approval.Some? && r.approval.value.status == Denied)
    && (!Settling(r.approval) ==> Unedited(r.inv))
  }

  function Rank(s: InvocationStatus): nat {
    match s
    case Pending => 0
    case PendingApproval => 1
    case Approved => 2
    case Running => 3
    case _ => 4
  }

  predicate Leads(s: InvocationStatus, t: InvocationStatus) {
    s == t || (Rank(s) < Rank(t) && (s == Approved || s == Running ==> Started(t)))
  }

  predicate InvEvolves(a: Invocation, b: Invocation) {
    && a.threadId == b.threadId && a.callId == b.callId
    && a.toolName == b.toolName && a.requestedInput == b.requestedInput
    && Leads(a.status, b.status)
    && (a.status == b.status ==> a == b)
    && (Rank(a.status) >= 2 ==> a.effectiveToolName == b.effectiveToolName && a.effectiveInput == b.effectiveInput)
  }

  /** What commits may do to the rows of a key, in any number of them. */
  predicate Evolves(r: Rows, q: Rows) {
    && InvEvolves(r.inv, q.inv)
    && (r.approval.Some? ==> q.approval.Some?)
    && (Settling(r.approval) ==> q.approval == r.approval)
    && (r.inv.status == PendingApproval && q.inv.status != PendingApproval ==> Settling(q.approval))
    && (r.approval.Some? && Rank(r.inv.status) >= 2 ==> q.approval == r.approval)
    && (r.approval.None? && Started(r.inv.status) ==> !Settling(q.approval))
  }

  lemma InvEvolvesTransitive(a: Invocation, b: Invocation, c: Invocation)
    requires InvEvolves(a, b) && InvEvolves(b, c)
    ensures InvEvolves(a, c)
  {
  }

  lemma EvolvesTransitive(k: Key, a: Rows, b: Rows, c: Rows)
    requires RowsOk(k, a) && RowsOk(k, b) && Evolves(a, b) && Evolves(b, c)
    ensures Evolves(a, c)
  {
    InvEvolvesTransitive(a.inv, b.inv, c.inv);
  }

  ghost predicate DbOk(db: Db) { forall k | k in db :: RowsOk(k, db[k]) }

  ghost predicate DbEvolves(a: Db, b: Db) {
    forall k | k in a :: k in b && Evolves(a[k], b[k])
  }

  lemma EvolvesReflexive(db: Db)
    ensures DbEvolves(db, db)
  {
  }

  lemma DbEvolvesTransitive(a: Db, b: Db, c: Db)
    requires DbOk(a) && DbOk(b) && DbEvolves(a, b) && DbEvolves(b, c)
    ensures DbEvolves(a, c)
  {
    forall k | k in a ensures k in c && Evolves(a[k], c[k]) { EvolvesTransitive(k, a[k], b[k], c[k]); }
  }

  /** A call that its stored row accepts is accepted by whatever becomes of that row. */
  lemma PayloadIsStable(a: Invocation, b: Invocation, c: Call, allowEffective: bool)
    requires Unedited(a) || Rank(a.status) >= 2
    requires InvEvolves(a, b) && PayloadMatches(a, c, allowEffective)
    ensures PayloadMatches(b, c, allowEffective)
  {
    hide Canonical, JsonObject;
  }

  predicate Matched(view: Db, d: Decision) {
    var k := KeyOf(d.call);
    k in view && view[k].approval.Some? && DecisionMatches(view[k].approval.value, view[k].inv, d)
  }

  /** The approval row holds exactly this decision, and the invocation its effective call. */
  predicate DecidedBy(r: Rows, d: Decision) {
    && StatusFor(d.kind).Some?
    && r.approval == Some(Approval(StatusFor(d.kind).value, JsonObject(d.payload)))
    && r.inv.effectiveToolName == d.effectiveTool && r.inv.effectiveInput == JsonObject(d.effectiveInput)
  }

  /** The stored row is that of this very call. */
  predicate AcceptsCall(view: Db, c: Call) { KeyOf(c) in view && PayloadMatches(view[KeyOf(c)].inv, c, false) }

  /** The rows are those of its call and carry this decision: it was written from it, or compared equal to it. */
  predicate Honoured(view: Db, d: Decision) {
    AcceptsCall(view, d.call) && (Matched(view, d) || DecidedBy(view[KeyOf(d.call)], d))
  }

  /** A decision whose stored form keeps its canonical text: in particular every JSON decision. */
  ghost predicate Repeatable(d: Decision) {
    Settled(d.payload, TOOL_STATE_PAYLOAD_MAX_CHARS) && Settled(d.effectiveInput, TOOL_STATE_PAYLOAD_MAX_CHARS)
  }

  /** Once a decision matches, it keeps matching through every later claim, completion or failure. */
  lemma MatchIsStable(k: Key, r: Rows, q: Rows, d: Decision)
    requires RowsOk(k, r) && Evolves(r, q)
    requires r.approval.Some? && DecisionMatches(r.approval.value, r.inv, d)
    ensures q.approval.Some? && DecisionMatches(q.approval.value, q.inv, d)
  {
  }

  lemma HonouredStable(a: Db, b: Db, d: Decision)
    requires KeyOf(d.call) in a ==> RowsOk(KeyOf(d.call), a[KeyOf(d.call)])
    requires KeyOf(d.call) in a ==> KeyOf(d.call) in b && Evolves(a[KeyOf(d.call)], b[KeyOf(d.call)])
    requires Honoured(a, d)
    ensures Honoured(b, d)
  {
    hide Canonical, JsonObject;
    PayloadIsStable(a[KeyOf(d.call)].inv, b[KeyOf(d.call)].inv, d.call, false);
    if Matched(a, d) { MatchIsStable(KeyOf(d.call), a[KeyOf(d.call)], b[KeyOf(d.call)], d); }
  }

  /** The rows a decision writes are recognised by the same decision, exactly when it is repeatable. */
  lemma DecideMatchesIff(r: Rows, d: Decision)
    requires StatusFor(d.kind).Some?
    ensures DecisionMatches(Decide(r, d).approval.value, Decide(r, d).inv, d) <==> Repeatable(d)
  {
    CanonicalStableIff(d.payload);
    CanonicalStableIff(d.effectiveInput);
  }

  lemma DecideEvolves(k: Key, r: Rows, d: Decision)
    requires RowsOk(k, r) && Decidable(r) && StatusFor(d.kind).Some?
    ensures RowsOk(k, Decide(r, d)) && Evolves(r, Decide(r, d))
  {
  }

  lemma StartEvolves(k: Key, r: Rows)
    requires RowsOk(k, r) && r.inv.status == Approved
    ensures RowsOk(k, StartRunning(r)) && Evolves(r, StartRunning(r))
  {
  }

  lemma FinishEvolves(k: Key, r: Rows, e: Ending)
    requires RowsOk(k, r)
    ensures RowsOk(k, Finish(r, e)) && Evolves(r, Finish(r, e))
  {
  }

  lemma FinishRows(db: Db, k: Key, e: Ending)
    requires DbOk(db) && k in db
    ensures DbOk(db[k := Finish(db[k], e)]) && DbEvolves(db, db[k := Finish(db[k], e)])
  {
    hide Finish;
    EvolvesReflexive(db);
    FinishEvolves(k, db[k], e);
  }

  lemma ApprovalEvolves(k: Key, r: Rows)
    requires RowsOk(k, r)
    ensures RowsOk(k, WithApproval(r)) && Evolves(r, WithApproval(r))
  {
  }
}
