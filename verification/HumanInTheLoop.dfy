/** app/agents/chat.py: `PersistentHumanInTheLoopMiddleware.after_model`. */
module HumanInTheLoop {
  import opened Values
  import opened ToolRows
  import opened ToolStore

  /** A tool call of the model's message. */
  datatype ToolCall = ToolCall(id: Option<string>, name: string, args: Value)

  /** A human decision as the interrupt returns it; `payload` is the whole dictionary. */
  datatype Verdict = Verdict(kind: string, editedName: string, editedArgs: Value, message: string, payload: Value)

  datatype ToolMessage = ToolMessage(content: string, name: string, callId: Option<string>)

  /** Who runs the graph: no user means nothing is persisted. */
  datatype Session = Session(user: Option<string>, threadId: Option<string>, runId: Option<string>)

  function Text(id: Option<string>): string { if id.Some? then id.value else "" }

  function Mapping(v: Value): Value { if v.Dict? then v else Dict([]) }

  function CallName(tc: ToolCall): string { if tc.name == "" then "unknown" else tc.name }

  /** The call as the service is told about it, by the middleware and by `_prepare_tool_call` alike. */
  function AsCall(s: Session, tc: ToolCall): Call
    requires s.user.Some?
  {
    Call(s.user.value, s.threadId, s.runId, Text(tc.id), CallName(tc), Mapping(tc.args))
  }

  /** LangChain's `_process_decision`: a decision type that is not allowed raises. */
  function Revise(v: Verdict, tc: ToolCall, allowed: set<string>): Option<(ToolCall, Option<ToolMessage>)> {
    if v.kind !in allowed then None
    else if v.kind == "approve" then Some((tc, None))
    else if v.kind == "edit" then Some((ToolCall(tc.id, v.editedName, v.editedArgs), None))
    else if v.kind == "reject" then Some((tc, Some(ToolMessage(v.message, tc.name, tc.id))))
    else None
  }

  function AsDecision(s: Session, v: Verdict, tc: ToolCall, revised: ToolCall): Decision
    requires s.user.Some?
  {
    Decision(AsCall(s, tc), v.kind, CallName(revised), Mapping(revised.args), v.payload)
  }

  /** The decision kinds each tool allows, for the tools under review. */
  type Allowed = map<string, set<string>>

  /** How many calls before position `i` are interrupted. */
  function RankAt(interrupted: seq<bool>, i: nat): (n: nat)
    requires i <= |interrupted|
    ensures n <= i
  {
    if i == 0 then 0 else RankAt(interrupted, i - 1) + if interrupted[i - 1] then 1 else 0
  }

  lemma {:induction false} RankGrows(interrupted: seq<bool>, i: nat, j: nat)
    requires i <= j <= |interrupted|
    ensures RankAt(interrupted, i) <= RankAt(interrupted, j)
    ensures i < j && interrupted[i] ==> RankAt(interrupted, i) < RankAt(interrupted, j)
    decreases j - i
  {
    if i < j { RankGrows(interrupted, i, j - 1); }
  }

  datatype Result = Untouched | Invalid | Conflict(e: Error) | Revised(calls: seq<ToolCall>, messages: seq<ToolMessage>)

  /** Up to position `n`, the k-th interrupted call is paired with the k-th verdict and the rest is kept. */
  ghost predicate Paired(calls: seq<ToolCall>, interrupted: seq<bool>, verdicts: seq<Verdict>, allowed: Allowed,
                         revised: seq<ToolCall>, n: nat)
    requires n <= |calls| == |interrupted|
  {
    && |revised| == n
    && forall i | 0 <= i < n :: PairedAt(calls, interrupted, verdicts, allowed, revised[i], i)
  }

  ghost predicate PairedAt(calls: seq<ToolCall>, interrupted: seq<bool>, verdicts: seq<Verdict>, allowed: Allowed,
                           revised: ToolCall, i: nat)
    requires i < |calls| == |interrupted|
  {
    if !interrupted[i] then revised == calls[i]
    else
      var k := RankAt(interrupted, i);
      && k < |verdicts| && calls[i].name in allowed
      && Revise(verdicts[k], calls[i], allowed[calls[i].name]).Some?
      && revised == Revise(verdicts[k], calls[i], allowed[calls[i].name]).value.0
      && revised.id == calls[i].id
  }

  /** Up to position `n`, the k-th recorded decision is the k-th verdict on the k-th interrupted call. */
  ghost predicate DecisionsPaired(s: Session, calls: seq<ToolCall>, interrupted: seq<bool>, verdicts: seq<Verdict>,
                                  revised: seq<ToolCall>, ds: seq<Decision>, n: nat)
    requires n <= |calls| == |interrupted| && n == |revised| && s.user.Some?
  {
    && |ds| == RankAt(interrupted, n)
    && forall i | 0 <= i < n && interrupted[i] ::
         var k := RankAt(interrupted, i);
         k < |ds| && k < |verdicts| && ds[k] == AsDecision(s, verdicts[k], calls[i], revised[i])
  }

  /** One artificial message per rejected call, in order. */
  function Rejections(calls: seq<ToolCall>, interrupted: seq<bool>, verdicts: seq<Verdict>, n: nat): seq<ToolMessage>
    requires n <= |calls| == |interrupted| && RankAt(interrupted, n) <= |verdicts|
  {
    if n == 0 then []
    else
      var front := Rejections(calls, interrupted, verdicts, n - 1);
      if !interrupted[n - 1] then front
      else
        var v := verdicts[RankAt(interrupted, n - 1)];
        if v.kind == "reject" then front + [ToolMessage(v.message, calls[n - 1].name, calls[n - 1].id)] else front
  }

  /** The interrupted calls, in order. */
  function Selected(s: Session, calls: seq<ToolCall>, interrupted: seq<bool>, n: nat): (r: seq<Call>)
    requires n <= |calls| == |interrupted| && s.user.Some?
    ensures |r| == RankAt(interrupted, n)
  {
    if n == 0 then []
    else Selected(s, calls, interrupted, n - 1) + if interrupted[n - 1] then [AsCall(s, calls[n - 1])] else []
  }

  method CollectInterrupted(s: Session, calls: seq<ToolCall>, interrupted: seq<bool>)
    returns (count: nat, asked: seq<Call>)
    requires |calls| == |interrupted|
    ensures count == RankAt(interrupted, |calls|)
    ensures s.user.Some? ==> asked == Selected(s, calls, interrupted, |calls|)
  {
    count, asked := 0, [];
    for i := 0 to |calls|
      invariant count == RankAt(interrupted, i)
      invariant s.user.Some? ==> asked == Selected(s, calls, interrupted, i)
    {
      if interrupted[i] {
        count := count + 1;
        if s.user.Some? { asked := asked + [AsCall(s, calls[i])]; }
      }
    }
  }

  lemma PairedSnoc(calls: seq<ToolCall>, interrupted: seq<bool>, verdicts: seq<Verdict>, allowed: Allowed,
                   revised: seq<ToolCall>, i: nat, next: ToolCall)
    requires i < |calls| == |interrupted| && Paired(calls, interrupted, verdicts, allowed, revised, i)
    requires PairedAt(calls, interrupted, verdicts, allowed, next, i)
    ensures Paired(calls, interrupted, verdicts, allowed, revised + [next], i + 1)
  {
  }

  /** What the loop has made of the first `i` calls. */
  ghost predicate RevisedSoFar(s: Session, calls: seq<ToolCall>, interrupted: seq<bool>, verdicts: seq<Verdict>,
                               allowed: Allowed, revised: seq<ToolCall>, messages: seq<ToolMessage>,
                               durable: seq<Decision>, i: nat)
    requires i <= |calls| == |interrupted| && |verdicts| == RankAt(interrupted, |calls|)
  {
    RankGrows(interrupted, i, |calls|);
    && |revised| == i && Paired(calls, interrupted, verdicts, allowed, revised, i)
    && messages == Rejections(calls, interrupted, verdicts, i)
    && (s.user.Some? ==> DecisionsPaired(s, calls, interrupted, verdicts, revised, durable, i))
    && forall j | 0 <= j < i && interrupted[j] :: VerdictAllowed(calls, interrupted, verdicts, allowed, j)
  }

  lemma NothingRevised(s: Session, calls: seq<ToolCall>, interrupted: seq<bool>, verdicts: seq<Verdict>,
                       allowed: Allowed)
    requires |calls| == |interrupted| && |verdicts| == RankAt(interrupted, |calls|)
    ensures RevisedSoFar(s, calls, interrupted, verdicts, allowed, [], [], [], 0)
  {
  }

  /** A call that is not interrupted is kept. */
  lemma KeptTurn(s: Session, calls: seq<ToolCall>, interrupted: seq<bool>, verdicts: seq<Verdict>, allowed: Allowed,
                 revised: seq<ToolCall>, messages: seq<ToolMessage>, durable: seq<Decision>, i: nat)
    requires i < |calls| == |interrupted| && |verdicts| == RankAt(interrupted, |calls|) && !interrupted[i]
    requires RevisedSoFar(s, calls, interrupted, verdicts, allowed, revised, messages, durable, i)
    ensures RevisedSoFar(s, calls, interrupted, verdicts, allowed, revised + [calls[i]], messages, durable, i + 1)
  {
    hide Paired, JsonObject, AsDecision;
    RankGrows(interrupted, i + 1, |calls|);
    PairedSnoc(calls, interrupted, verdicts, allowed, revised, i, calls[i]);
  }

  lemma RevisedIff(calls: seq<ToolCall>, interrupted: seq<bool>, verdicts: seq<Verdict>, allowed: Allowed, i: nat)
    requires i < |calls| == |interrupted| && RankAt(interrupted, i) < |verdicts| && calls[i].name in allowed
    ensures Revise(verdicts[RankAt(interrupted, i)], calls[i], allowed[calls[i].name]).Some?
      <==> VerdictAllowed(calls, interrupted, verdicts, allowed, i)
  {
  }

  lemma RejectionNext(calls: seq<ToolCall>, interrupted: seq<bool>, verdicts: seq<Verdict>, allowed: Allowed, i: nat)
    requires i < |calls| == |interrupted| && RankAt(interrupted, i) < |verdicts| && interrupted[i]
    requires calls[i].name in allowed
    requires Revise(verdicts[RankAt(interrupted, i)], calls[i], allowed[calls[i].name]).Some?
    ensures var next := Revise(verdicts[RankAt(interrupted, i)], calls[i], allowed[calls[i].name]).value;
      && Rejections(calls, interrupted, verdicts, i + 1)
        == Rejections(calls, interrupted, verdicts, i) + (if next.1.Some? then [next.1.value] else [])
      && PairedAt(calls, interrupted, verdicts, allowed, next.0, i)
  {
    hide RankAt;
    RankNext(interrupted, i);
  }

  lemma RankNext(interrupted: seq<bool>, i: nat)
    requires i < |interrupted|
    ensures RankAt(interrupted, i + 1) == RankAt(interrupted, i) + if interrupted[i] then 1 else 0
  {
  }

  /** An interrupted call takes the next verdict. */
  lemma VerdictTurn(s: Session, calls: seq<ToolCall>, interrupted: seq<bool>, verdicts: seq<Verdict>, allowed: Allowed,
                    revised: seq<ToolCall>, messages: seq<ToolMessage>, durable: seq<Decision>, i: nat, k: nat)
    requires i < |calls| == |interrupted| && |verdicts| == RankAt(interrupted, |calls|) && interrupted[i]
    requires k == RankAt(interrupted, i) && calls[i].name in allowed
    requires RevisedSoFar(s, calls, interrupted, verdicts, allowed, revised, messages, durable, i)
    ensures k < |verdicts|
    ensures var outcome := Revise(verdicts[k], calls[i], allowed[calls[i].name]);
      if outcome.None? then !VerdictAllowed(calls, interrupted, verdicts, allowed, i)
      else
        var ds := if s.user.None? then durable
                  else durable + [AsDecision(s, verdicts[k], calls[i], outcome.value.0)];
        var ms := if outcome.value.1.None? then messages else messages + [outcome.value.1.value];
        RevisedSoFar(s, calls, interrupted, verdicts, allowed, revised + [outcome.value.0], ms, ds, i + 1)
  {
    hide Paired, PairedAt, DecisionsPaired, Rejections, VerdictAllowed, Revise, RankAt, JsonObject;
    RankNext(interrupted, i);
    RankGrows(interrupted, i + 1, |calls|);
    RevisedIff(calls, interrupted, verdicts, allowed, i);
    var outcome := Revise(verdicts[k], calls[i], allowed[calls[i].name]);
    if outcome.Some? {
      RejectionNext(calls, interrupted, verdicts, allowed, i);
      PairedSnoc(calls, interrupted, verdicts, allowed, revised, i, outcome.value.0);
      if s.user.Some? {
        PairedLength(s, calls, interrupted, verdicts, revised, durable, i);
        DecisionSnoc(s, calls, interrupted, verdicts, revised, durable, i, outcome.value.0);
      }
    }
  }

  lemma PairedLength(s: Session, calls: seq<ToolCall>, interrupted: seq<bool>, verdicts: seq<Verdict>,
                     revised: seq<ToolCall>, ds: seq<Decision>, i: nat)
    requires i <= |calls| == |interrupted| && i == |revised| && s.user.Some?
    requires DecisionsPaired(s, calls, interrupted, verdicts, revised, ds, i)
    ensures |ds| == RankAt(interrupted, i)
  {
  }

  /** The loop with its two indices: `i` over all calls, `decisionIndex` over the verdicts. */
  method ReviseCalls(s: Session, calls: seq<ToolCall>, interrupted: seq<bool>,
                     allowed: Allowed, verdicts: seq<Verdict>)
    returns (ok: bool, revised: seq<ToolCall>, messages: seq<ToolMessage>, durable: seq<Decision>)
    requires |calls| == |interrupted| && |verdicts| == RankAt(interrupted, |calls|)
    requires forall i | 0 <= i < |calls| && interrupted[i] :: calls[i].name in allowed
    ensures ok <==> (forall i | 0 <= i < |calls| && interrupted[i] ::
      VerdictAllowed(calls, interrupted, verdicts, allowed, i))
    ensures ok ==> Paired(calls, interrupted, verdicts, allowed, revised, |calls|)
    ensures ok ==> messages == Rejections(calls, interrupted, verdicts, |calls|)
    ensures ok && s.user.Some? ==> DecisionsPaired(s, calls, interrupted, verdicts, revised, durable, |calls|)
  {
    hide RevisedSoFar, Revise, AsDecision;
    revised, messages, durable := [], [], [];
    NothingRevised(s, calls, interrupted, verdicts, allowed);
    var decisionIndex := 0;
    for i := 0 to |calls|
      invariant decisionIndex == RankAt(interrupted, i)
      invariant RevisedSoFar(s, calls, interrupted, verdicts, allowed, revised, messages, durable, i)
    {
      if !interrupted[i] {
        KeptTurn(s, calls, interrupted, verdicts, allowed, revised, messages, durable, i);
        revised := revised + [calls[i]];
      } else {
        VerdictTurn(s, calls, interrupted, verdicts, allowed, revised, messages, durable, i, decisionIndex);
        var v := verdicts[decisionIndex];
        decisionIndex := decisionIndex + 1;
        var outcome := Revise(v, calls[i], allowed[calls[i].name]);
        if outcome.None? { return false, revised, messages, durable; }
        if s.user.Some? { durable := durable + [AsDecision(s, v, calls[i], outcome.value.0)]; }
        revised := revised + [outcome.value.0];
        if outcome.value.1.Some? { messages := messages + [outcome.value.1.value]; }
      }
    }
    ok := true;
    AllRevised(s, calls, interrupted, verdicts, allowed, revised, messages, durable);
  }

  lemma AllRevised(s: Session, calls: seq<ToolCall>, interrupted: seq<bool>, verdicts: seq<Verdict>, allowed: Allowed,
                   revised: seq<ToolCall>, messages: seq<ToolMessage>, durable: seq<Decision>)
    requires |calls| == |interrupted| && |verdicts| == RankAt(interrupted, |calls|)
    requires RevisedSoFar(s, calls, interrupted, verdicts, allowed, revised, messages, durable, |calls|)
    ensures |revised| == |calls| && Paired(calls, interrupted, verdicts, allowed, revised, |calls|)
    ensures messages == Rejections(calls, interrupted, verdicts, |calls|)
    ensures s.user.Some? ==> DecisionsPaired(s, calls, interrupted, verdicts, revised, durable, |calls|)
    ensures forall i | 0 <= i < |calls| && interrupted[i] ::
      VerdictAllowed(calls, interrupted, verdicts, allowed, i)
  {
  }

  /** The verdict for an interrupted call is of an allowed kind. */
  ghost predicate VerdictAllowed(calls: seq<ToolCall>, interrupted: seq<bool>, verdicts: seq<Verdict>,
                                 allowed: Allowed, i: nat)
    requires i < |calls| == |interrupted|
  {
    var k := RankAt(interrupted, i);
    && k < |verdicts| && calls[i].name in allowed && verdicts[k].kind in allowed[calls[i].name]
    && verdicts[k].kind in {"approve", "edit", "reject"}
  }

  lemma DecisionSnoc(s: Session, calls: seq<ToolCall>, interrupted: seq<bool>, verdicts: seq<Verdict>,
                     revised: seq<ToolCall>, ds: seq<Decision>, i: nat, next: ToolCall)
    requires i < |calls| == |interrupted| && i == |revised| && s.user.Some? && interrupted[i]
    requires DecisionsPaired(s, calls, interrupted, verdicts, revised, ds, i) && |ds| < |verdicts|
    ensures var d := AsDecision(s, verdicts[|ds|], calls[i], next);
      DecisionsPaired(s, calls, interrupted, verdicts, revised + [next], ds + [d], i + 1)
  {
  }

  /** One verdict for each interrupted call, each of a kind its tool allows. */
  ghost predicate VerdictsFit(calls: seq<ToolCall>, interrupted: seq<bool>, verdicts: seq<Verdict>,
                              allowed: Allowed)
    requires |calls| == |interrupted|
    requires forall i | 0 <= i < |calls| && interrupted[i] :: calls[i].name in allowed
  {
    |verdicts| == RankAt(interrupted, |calls|)
    && forall i | 0 <= i < |calls| && interrupted[i] :: VerdictAllowed(calls, interrupted, verdicts, allowed, i)
  }

  /** What recording the decisions makes of the tables `mid` and of the result. */
  ghost predicate Persisted(mid: Db, owners: map<string, string>, ds: seq<Decision>, r: Result, after: Db) {
    match RecordAll(mid, owners, ds)
    case Continue(v) => r.Revised? && after == v
    case Stop(e) => r == Conflict(e) && after == mid
    case Race => after == mid && (if CheckAll(mid, owners, ds).Ok? then r.Revised? else r.Conflict?)
  }

  /** `interrupted` says which calls are configured and due for review; `verdicts` is what the human answered. */
  method AfterModel(store: Store, s: Session, calls: seq<ToolCall>, interrupted: seq<bool>,
                    allowed: Allowed, verdicts: seq<Verdict>)
    returns (r: Result, durable: seq<Decision>)
    requires store.Valid() && |calls| == |interrupted|
    requires forall i | 0 <= i < |calls| && interrupted[i] :: calls[i].name in allowed
    modifies store
    ensures store.Valid() && DbEvolves(old(store.db), store.db)
    ensures r.Untouched? <==> RankAt(interrupted, |calls|) == 0
    ensures r.Untouched? ==> store.db == old(store.db)
    ensures r.Revised? ==> |verdicts| == RankAt(interrupted, |calls|)
    ensures r.Revised? ==> Paired(calls, interrupted, verdicts, allowed, r.calls, |calls|)
    ensures r.Revised? ==> r.messages == Rejections(calls, interrupted, verdicts, |calls|)
    ensures r.Revised? && s.user.Some? ==>
      && DecisionsPaired(s, calls, interrupted, verdicts, r.calls, durable, |calls|)
      && AllCarried(store.db, store.owners, durable)
    ensures s.user.None? ==> store.db == old(store.db) && !r.Conflict?
    ensures s.user.Some? && !r.Untouched? ==>
      var asked := PendAll(old(store.db), store.owners, Selected(s, calls, interrupted, |calls|));
      if asked.Err? then r == Conflict(asked.error) && store.db == old(store.db)
      else if r.Invalid? then store.db == asked.value
      else Persisted(asked.value, store.owners, durable, r, store.db)
    ensures var asked :=
        s.user.None? || PendAll(old(store.db), store.owners, Selected(s, calls, interrupted, |calls|)).Ok?;
      r.Invalid? <==> (asked && RankAt(interrupted, |calls|) > 0 && !VerdictsFit(calls, interrupted, verdicts, allowed))
  {
    durable := [];
    assert DbEvolves(store.db, store.db);
    var count, asked := CollectInterrupted(s, calls, interrupted);
    if count == 0 { return Untouched, []; }
    if s.user.Some? {
      var error := store.EnsurePendingApprovals(asked);
      if error.Some? { return Conflict(error.value), []; }
    }
    if |verdicts| != count { return Invalid, []; }
    var ok, revised, messages;
    ok, revised, messages, durable := ReviseCalls(s, calls, interrupted, allowed, verdicts);
    if !ok { return Invalid, []; }
    if s.user.Some? {
      ghost var mid := store.db;
      var error := store.RecordApprovalDecisions(durable);
      DbEvolvesTransitive(old(store.db), mid, store.db);
      if error.Some? { return Conflict(error.value), durable; }
    }
    r := Revised(revised, messages);
  }

  /** An approved or edited call that the middleware returned is accepted by the claim that follows. */
  lemma ReturnedCallIsAccepted(db: Db, owners: map<string, string>, s: Session, calls: seq<ToolCall>,
                               interrupted: seq<bool>,
                               verdicts: seq<Verdict>, allowed: Allowed, revised: seq<ToolCall>,
                               ds: seq<Decision>, i: nat)
    requires DbOk(db) && s.user.Some? && |calls| == |interrupted| && i < |calls| && interrupted[i]
    requires Paired(calls, interrupted, verdicts, allowed, revised, |calls|)
    requires DecisionsPaired(s, calls, interrupted, verdicts, revised, ds, |calls|) && AllCarried(db, owners, ds)
    requires verdicts[RankAt(interrupted, i)].kind in {"approve", "edit"} && Repeatable(ds[RankAt(interrupted, i)])
    ensures Claimed(db, owners, AsCall(s, revised[i])).Ok?
    ensures Claimed(db, owners, AsCall(s, revised[i])).value.1.shouldExecute
      <==> db[KeyOf(AsCall(s, calls[i]))].inv.status == Approved
  {
    var d := ds[RankAt(interrupted, i)];
    assert Carried(db, owners, d);
    assert AsCall(s, revised[i]) == EffectiveCall(d);
    ApprovedCallIsAccepted(db, owners, d);
  }

  /** The arguments the model first asked for are refused after an edit that changes them, and only then. */
  lemma OriginalArgumentsRefusedIff(
    db: Db, owners: map<string, string>, s: Session, calls: seq<ToolCall>, interrupted: seq<bool>,
    verdicts: seq<Verdict>, revised: seq<ToolCall>, ds: seq<Decision>, i: nat)
    requires DbOk(db) && s.user.Some? && |calls| == |interrupted| == |revised| && i < |calls| && interrupted[i]
    requires DecisionsPaired(s, calls, interrupted, verdicts, revised, ds, |calls|) && AllCarried(db, owners, ds)
    requires Repeatable(ds[RankAt(interrupted, i)])
    ensures Claimed(db, owners, AsCall(s, calls[i])) == Err(InvocationConflict) <==>
      (CallName(revised[i]) != CallName(calls[i])
       || Canonical(JsonObject(Mapping(revised[i].args))) != Canonical(JsonObject(Mapping(calls[i].args))))
  {
    var d := ds[RankAt(interrupted, i)];
    assert Carried(db, owners, d);
    OriginalCallRefusedIff(db, owners, d);
  }

  /** A resumed run repeats the whole hook: after anything that was committed since, asking and recording the
      same again is neither refused nor changes a row. */
  lemma ResumeIsNoOp(db: Db, owners: map<string, string>, asked: seq<Call>, ds: seq<Decision>, later: Db)
    requires DbOk(db) && DbOk(later) && PendAll(db, owners, asked).Ok?
    requires RecordAll(PendAll(db, owners, asked).value, owners, ds).Continue?
    requires DbEvolves(RecordAll(PendAll(db, owners, asked).value, owners, ds).view, later)
    requires forall i | 0 <= i < |ds| :: Repeatable(ds[i])
    ensures PendAll(later, owners, asked) == Ok(later) && RecordAll(later, owners, ds) == Continue(later)
  {
    hide PendAll, RecordAll, RowsOk, Evolves, Repeatable;
    var mid := PendAll(db, owners, asked).value;
    PendAllOk(db, owners, asked);
    RecordAllOk(mid, owners, ds);
    var recorded := RecordAll(mid, owners, ds).view;
    DbEvolvesTransitive(mid, recorded, later);
    AskingAgainIsNoOp(db, owners, asked, later);
    ReplayIsNoOp(mid, owners, ds, later);
  }
}
