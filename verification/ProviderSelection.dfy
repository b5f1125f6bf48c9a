/** The operation-bound selection session (src/services/providerSelectionPolicyV1.ts) and the registry's ranked
    selection (`openV1RunnerSelection` in src/runners/runnerRegistry.ts). */
module ProviderSelection {
  import opened Wrappers

  type AttemptId = nat
  type ModelId = string

  /** How an attempt settled, as the coordinator reports it. */
  datatype AttemptOutcome =
    | AttemptCompleted
    | AskedQuestions
    | DeclaredFailure
    | MalformedResult
    | MalformedResultPreFallback
    | ContractFailure
    | ContractFailurePreFallback
    | CorrelationMismatch
    | Overflow
    | ProviderCancelled
    | CallerCancelled
    | FailedAfterResponse
    | FailedBeforeResponse
    | UnavailableBeforeInvocation

  /** The outcomes after which another attempt may be allocated; every other one closes the session. */
  predicate FallbackEligible(o: AttemptOutcome)
  {
    o.FailedBeforeResponse? || o.UnavailableBeforeInvocation? || o.MalformedResultPreFallback? ||
    o.ContractFailurePreFallback?
  }

  /** One attempt: its reservation names a model once there is one. */
  datatype Attempt = Attempt(id: AttemptId, model: Option<ModelId>, claimed: bool, invoked: bool,
                             outcome: Option<AttemptOutcome>)

  function Last<T>(s: seq<T>): T
    requires s != []
  {
    s[|s| - 1]
  }

  /** The log a session can have: only its last attempt may be open or settled terminally. */
  ghost predicate WellLogged(attempts: seq<Attempt>)
  {
    (forall i :: 0 <= i < |attempts| - 1 ==>
      attempts[i].outcome.Some? && FallbackEligible(attempts[i].outcome.value)) &&
    (forall i, j :: 0 <= i < j < |attempts| ==> attempts[i].id != attempts[j].id) &&
    (forall i :: 0 <= i < |attempts| ==>
      (attempts[i].claimed ==> attempts[i].model.Some?) && (attempts[i].invoked ==> attempts[i].claimed))
  }

  /** Closed by a terminal outcome. */
  predicate Closed(attempts: seq<Attempt>)
  {
    attempts != [] && Last(attempts).outcome.Some? && !FallbackEligible(Last(attempts).outcome.value)
  }

  /** Every attempt so far has its outcome and the session is not closed. */
  predicate ReadyToAllocate(attempts: seq<Attempt>)
  {
    attempts == [] || (Last(attempts).outcome.Some? && FallbackEligible(Last(attempts).outcome.value))
  }

  /** The last attempt is reserved for `model`, not claimed and not settled. */
  predicate InHand(attempts: seq<Attempt>, id: AttemptId, model: ModelId)
  {
    attempts != [] && Last(attempts) == Attempt(id, Some(model), false, false, None)
  }

  function WithLast(attempts: seq<Attempt>, a: Attempt): seq<Attempt>
    requires attempts != []
  {
    attempts[..|attempts| - 1] + [a]
  }

  /** Identities come from one source that never repeats: `nextId` has not been given out yet. */
  class Session {
    var attempts: seq<Attempt>
    var terminated: bool
    var nextId: AttemptId
    const recorded: Option<AttemptId>  // the attempt a settled Resume is bound to
    var adopted: Option<AttemptId>     // the same until the first attempt used it up

    ghost predicate Valid()
      reads this
    {
      WellLogged(attempts) && terminated == Closed(attempts) &&
      (forall a :: a in attempts ==> a.id < nextId) &&
      (recorded.Some? ==> recorded.value < nextId) &&
      (if attempts == [] then adopted == recorded
       else adopted.None? && (recorded.Some? ==> attempts[0].id == recorded.value))
    }

    constructor (nextId: AttemptId, recorded: Option<AttemptId>)
      requires recorded.Some? ==> recorded.value < nextId
      ensures Valid() && attempts == [] && this.nextId == nextId && this.recorded == recorded
    {
      attempts, terminated, this.nextId, this.recorded, this.adopted := [], false, nextId, recorded, recorded;
    }

    /** A fresh identity, except that an adopted one is used up by the first attempt. */
    method AllocateAttempt() returns (id: AttemptId)
      requires Valid() && !terminated
      requires attempts != [] ==> Last(attempts).outcome.Some?
      modifies this
      ensures Valid()
      ensures attempts == old(attempts) + [Attempt(id, None, false, false, None)]
      ensures old(adopted).Some? ==> id == old(adopted).value && nextId == old(nextId)
      ensures old(adopted).None? ==> id == old(nextId) && nextId == id + 1
      ensures adopted.None?
    {
      if adopted.Some? {
        id := adopted.value;
        adopted := None;
      } else {
        id := nextId;
        nextId := nextId + 1;
      }
      attempts := attempts + [Attempt(id, None, false, false, None)];
    }

    /** Each attempt gets exactly one reservation. */
    method Reserve(id: AttemptId, model: ModelId)
      requires Valid() && attempts != [] && Last(attempts) == Attempt(id, None, false, false, None)
      modifies this
      ensures Valid() && attempts == WithLast(old(attempts), Attempt(id, Some(model), false, false, None))
      ensures nextId == old(nextId) && adopted == old(adopted)
    {
      attempts := WithLast(attempts, Attempt(id, Some(model), false, false, None));
    }

    /** Claim a reservation, once. */
    method Claim(id: AttemptId)
      requires Valid() && attempts != [] && Last(attempts).id == id && Last(attempts).outcome.None?
      requires Last(attempts).model.Some? && !Last(attempts).claimed
      modifies this
      ensures Valid() && attempts == WithLast(old(attempts), Last(old(attempts)).(claimed := true))
      ensures nextId == old(nextId) && adopted == old(adopted)
    {
      attempts := WithLast(attempts, Last(attempts).(claimed := true));
    }

    /** Use up the single invocation of a claimed reservation. */
    method BeginInvocation(id: AttemptId)
      requires Valid() && attempts != [] && Last(attempts).id == id && Last(attempts).outcome.None?
      requires Last(attempts).claimed && !Last(attempts).invoked
      modifies this
      ensures Valid() && attempts == WithLast(old(attempts), Last(old(attempts)).(invoked := true))
      ensures nextId == old(nextId) && adopted == old(adopted)
    {
      attempts := WithLast(attempts, Last(attempts).(invoked := true));
    }

    /** Settle an attempt, once; a terminal outcome closes the session. */
    method ReportAttemptOutcome(id: AttemptId, outcome: AttemptOutcome)
      requires Valid() && attempts != [] && Last(attempts).id == id && Last(attempts).outcome.None?
      modifies this
      ensures Valid() && attempts == WithLast(old(attempts), Last(old(attempts)).(outcome := Some(outcome)))
      ensures nextId == old(nextId) && (old(adopted).None? ==> adopted.None?)
      ensures terminated <==>
        !outcome.FailedBeforeResponse? && !outcome.UnavailableBeforeInvocation? &&
        !outcome.MalformedResultPreFallback? && !outcome.ContractFailurePreFallback?
    {
      attempts := WithLast(attempts, Last(attempts).(outcome := Some(outcome)));
      if !FallbackEligible(outcome) {
        terminated := true;
      }
    }
  }

  // ---------- the ranked selection ----------

  /** A ranked candidate, and whether it can serve the requested mode. */
  datatype Candidate = Candidate(model: ModelId, supported: bool)

  function SupportedCount(ranked: seq<Candidate>): (n: nat)
    ensures n <= |ranked|
  {
    if ranked == [] then 0
    else SupportedCount(ranked[..|ranked| - 1]) + (if Last(ranked).supported then 1 else 0)
  }

  lemma {:induction false} SupportedPrefix(ranked: seq<Candidate>, n: nat)
    requires n <= |ranked|
    ensures SupportedCount(ranked[..n]) <= SupportedCount(ranked)
  {
    if n < |ranked| {
      var m := |ranked| - 1;
      assert ranked[..m][..n] == ranked[..n];
      SupportedPrefix(ranked[..m], n);
    } else {
      assert ranked[..n] == ranked;
    }
  }

  lemma SupportedNext(ranked: seq<Candidate>, n: nat)
    requires n < |ranked|
    ensures SupportedCount(ranked[..n + 1]) == SupportedCount(ranked[..n]) + (if ranked[n].supported then 1 else 0)
  {
    assert ranked[..n + 1][..n] == ranked[..n];
  }

  /** The registry ranks no model twice. */
  ghost predicate DistinctCandidates(ranked: seq<Candidate>)
  {
    forall i, j :: 0 <= i < j < |ranked| ==> ranked[i].model != ranked[j].model
  }

  function SupportedModels(ranked: seq<Candidate>): (ms: set<ModelId>)
    ensures forall m :: m in ms <==> Candidate(m, true) in ranked
  {
    set i | 0 <= i < |ranked| && ranked[i].supported :: ranked[i].model
  }

  lemma SupportedModelsGrow(front: seq<Candidate>, c: Candidate)
    requires forall i :: 0 <= i < |front| ==> front[i].model != c.model
    ensures c.model !in SupportedModels(front)
    ensures SupportedModels(front + [c]) == SupportedModels(front) + (if c.supported then {c.model} else {})
  {
    assert forall d :: d in front + [c] <==> d in front || d == c;
  }

  /** The candidate count counts models. */
  lemma {:induction false} SupportedModelsCount(ranked: seq<Candidate>)
    requires DistinctCandidates(ranked)
    ensures |SupportedModels(ranked)| == SupportedCount(ranked)
  {
    if ranked != [] {
      var front, c := ranked[..|ranked| - 1], Last(ranked);
      SupportedModelsCount(front);
      SupportedModelsGrow(front, c);
      assert ranked == front + [c];
    }
  }

  // ---------- how the registry builds its ranking ----------

  function Norms(ids: seq<ModelId>, norm: ModelId -> ModelId): set<ModelId>
  {
    set id | id in ids :: norm(id)
  }

  /** The ids that qualify, in order, each the first of its normal form and none of a form already taken. */
  function FirstOfEach(ids: seq<ModelId>, qualifies: ModelId -> bool, norm: ModelId -> ModelId, taken: set<ModelId>)
    : seq<ModelId>
  {
    if ids == [] then []
    else
      var kept := FirstOfEach(ids[..|ids| - 1], qualifies, norm, taken);
      if qualifies(Last(ids)) && norm(Last(ids)) !in taken + Norms(kept, norm) then kept + [Last(ids)] else kept
  }

  ghost predicate DistinctUnder(norm: ModelId -> ModelId, ids: seq<ModelId>)
  {
    forall i, j :: 0 <= i < j < |ids| ==> norm(ids[i]) != norm(ids[j])
  }

  lemma NormsAppend(ids: seq<ModelId>, id: ModelId, norm: ModelId -> ModelId)
    ensures Norms(ids + [id], norm) == Norms(ids, norm) + {norm(id)}
  {
    assert forall x :: x in ids + [id] <==> x in ids || x == id;
  }

  /** No model is kept twice or against `taken`, and every model that qualifies is represented. */
  lemma {:induction false} FirstOfEachKeepsEveryModelOnce(ids: seq<ModelId>, qualifies: ModelId -> bool,
                                                          norm: ModelId -> ModelId, taken: set<ModelId>)
    ensures
      var kept := FirstOfEach(ids, qualifies, norm, taken);
      DistinctUnder(norm, kept) && Norms(kept, norm) !! taken &&
      (forall id :: id in kept ==> id in ids && qualifies(id)) &&
      (forall id :: id in ids && qualifies(id) ==> norm(id) in taken + Norms(kept, norm))
  {
    if ids != [] {
      var front, id := ids[..|ids| - 1], Last(ids);
      FirstOfEachKeepsEveryModelOnce(front, qualifies, norm, taken);
      var kept := FirstOfEach(front, qualifies, norm, taken);
      NormsAppend(kept, id, norm);
      assert forall x :: x in ids <==> x in front || x == id;
      if norm(id) !in Norms(kept, norm) {
        assert forall i :: 0 <= i < |kept| ==> kept[i] in kept && norm(kept[i]) != norm(id);
      }
    }
  }

  /** Does position `i` hold the first qualifying id of a form that is not taken? */
  ghost predicate FirstOfForm(ids: seq<ModelId>, qualifies: ModelId -> bool, norm: ModelId -> ModelId,
                              taken: set<ModelId>, i: nat)
  {
    i < |ids| && qualifies(ids[i]) && norm(ids[i]) !in taken &&
    forall j :: 0 <= j < i ==> !(qualifies(ids[j]) && norm(ids[j]) == norm(ids[i]))
  }

  lemma LastIsFirstOfForm(ids: seq<ModelId>, qualifies: ModelId -> bool, norm: ModelId -> ModelId, taken: set<ModelId>)
    requires ids != []
    ensures
      var m := |ids| - 1;
      var kept := FirstOfEach(ids[..m], qualifies, norm, taken);
      FirstOfForm(ids, qualifies, norm, taken, m) <==> qualifies(ids[m]) && norm(ids[m]) !in taken + Norms(kept, norm)
  {
    var m := |ids| - 1;
    var front := ids[..m];
    var kept := FirstOfEach(front, qualifies, norm, taken);
    FirstOfEachKeepsEveryModelOnce(front, qualifies, norm, taken);
    if norm(ids[m]) in Norms(kept, norm) {
      var id :| id in kept && norm(id) == norm(ids[m]);
      var j :| 0 <= j < m && front[j] == id;
      assert qualifies(ids[j]) && norm(ids[j]) == norm(ids[m]);
    } else {
      forall j | 0 <= j < m && qualifies(ids[j]) && norm(ids[j]) == norm(ids[m])
        ensures norm(ids[m]) in taken
      {
        assert front[j] in front;
      }
    }
  }

  /** Taken from these positions, in their order. */
  ghost predicate Picked(ids: seq<ModelId>, at: seq<nat>, kept: seq<ModelId>)
  {
    |at| == |kept| && (forall k :: 0 <= k < |at| ==> at[k] < |ids| && kept[k] == ids[at[k]]) &&
    (forall j, k :: 0 <= j < k < |at| ==> at[j] < at[k])
  }

  lemma FirstOfFormBefore(ids: seq<ModelId>, qualifies: ModelId -> bool, norm: ModelId -> ModelId, taken: set<ModelId>,
                          m: nat, i: nat)
    requires i < m <= |ids|
    ensures FirstOfForm(ids, qualifies, norm, taken, i) <==> FirstOfForm(ids[..m], qualifies, norm, taken, i)
  {
    assert forall j :: 0 <= j < m ==> ids[..m][j] == ids[j];
  }

  lemma PickedNext(ids: seq<ModelId>, at: seq<nat>, kept: seq<ModelId>)
    requires ids != [] && Picked(ids[..|ids| - 1], at, kept)
    ensures Picked(ids, at, kept) && Picked(ids, at + [|ids| - 1], kept + [ids[|ids| - 1]])
  {
  }

  /** Exactly those positions are kept, each id in its own spelling and in the given order. */
  lemma {:induction false} FirstOfEachInOrder(ids: seq<ModelId>, qualifies: ModelId -> bool, norm: ModelId -> ModelId,
                                              taken: set<ModelId>)
    returns (at: seq<nat>)
    ensures Picked(ids, at, FirstOfEach(ids, qualifies, norm, taken))
    ensures forall i: nat :: i in at <==> FirstOfForm(ids, qualifies, norm, taken, i)
  {
    at := [];
    if ids != [] {
      var m := |ids| - 1;
      var before := FirstOfEachInOrder(ids[..m], qualifies, norm, taken);
      LastIsFirstOfForm(ids, qualifies, norm, taken);
      PickedNext(ids, before, FirstOfEach(ids[..m], qualifies, norm, taken));
      at := if FirstOfForm(ids, qualifies, norm, taken, m) then before + [m] else before;
      forall i: nat
        ensures i in at <==> FirstOfForm(ids, qualifies, norm, taken, i)
      {
        assert i in before ==> i < m;
        if i < m {
          FirstOfFormBefore(ids, qualifies, norm, taken, m, i);
        }
      }
    }
  }

  /** The loop with its `seen` set, as the registry runs it over the backups and over the switched-off models. */
  method KeepFirsts(ids: seq<ModelId>, qualifies: ModelId -> bool, norm: ModelId -> ModelId, taken: set<ModelId>)
    returns (kept: seq<ModelId>)
    ensures kept == FirstOfEach(ids, qualifies, norm, taken)
  {
    var seen := taken;
    kept := [];
    for i := 0 to |ids|
      invariant kept == FirstOfEach(ids[..i], qualifies, norm, taken) && seen == taken + Norms(kept, norm)
    {
      assert ids[..i + 1][..i] == ids[..i];
      if qualifies(ids[i]) && norm(ids[i]) !in seen {
        NormsAppend(kept, ids[i], norm);
        kept := kept + [ids[i]];
        seen := seen + {norm(ids[i])};
      }
    }
    assert ids[..|ids|] == ids;
  }

  /** The settings of a stage: its models, and whether it may switch to a backup at all. */
  datatype StageChain = StageChain(primary: Option<ModelId>, backups: seq<ModelId>, switches: bool) {
    function Configured(): seq<ModelId> { (if primary.Some? then [primary.value] else []) + backups }
  }

  lemma JoinDistinct(norm: ModelId -> ModelId, a: seq<ModelId>, b: seq<ModelId>)
    requires DistinctUnder(norm, a) && DistinctUnder(norm, b) && Norms(a, norm) !! Norms(b, norm)
    ensures DistinctUnder(norm, a + b)
  {
    forall i, j | 0 <= i < j < |a + b|
      ensures norm((a + b)[i]) != norm((a + b)[j])
    {
      if i < |a| <= j {
        assert norm(a[i]) in Norms(a, norm) && norm(b[j - |a|]) in Norms(b, norm);
      }
    }
  }

  /** `backupModelsForStage`: the enabled backups, each once and none that is the operation's own model. */
  function RankedBackups(modelId: ModelId, chain: StageChain, off: ModelId -> bool, norm: ModelId -> ModelId)
    : seq<ModelId>
  {
    if chain.switches then FirstOfEach(chain.backups, id => !off(id), norm, {norm(modelId)}) else []
  }

  lemma BackupsInOrder(modelId: ModelId, chain: StageChain, off: ModelId -> bool, norm: ModelId -> ModelId)
    returns (at: seq<nat>)
    ensures Picked(chain.backups, at, RankedBackups(modelId, chain, off, norm))
    ensures forall i: nat :: i in at <==>
        chain.switches && i < |chain.backups| && !off(chain.backups[i]) && norm(chain.backups[i]) != norm(modelId) &&
        forall j :: 0 <= j < i ==> off(chain.backups[j]) || norm(chain.backups[j]) != norm(chain.backups[i])
  {
    at := [];
    if chain.switches {
      var on := id => !off(id);
      at := FirstOfEachInOrder(chain.backups, on, norm, {norm(modelId)});
      assert RankedBackups(modelId, chain, off, norm) == FirstOfEach(chain.backups, on, norm, {norm(modelId)});
      forall i: nat
        ensures i in at <==>
          i < |chain.backups| && !off(chain.backups[i]) && norm(chain.backups[i]) != norm(modelId) &&
          forall j :: 0 <= j < i ==> off(chain.backups[j]) || norm(chain.backups[j]) != norm(chain.backups[i])
      {
        assert i in at <==> FirstOfForm(chain.backups, on, norm, {norm(modelId)}, i);
      }
    }
  }

  lemma SwitchedOffInOrder(chain: StageChain, off: ModelId -> bool, norm: ModelId -> ModelId, ranked: seq<Candidate>)
    returns (at: seq<nat>)
    ensures
      var all := (if chain.primary.Some? then [chain.primary.value] else []) + chain.backups;
      Picked(all, at, FirstOfEach(all, off, norm, Norms(ModelsOf(ranked), norm))) &&
      forall i: nat :: i in at <==>
        i < |all| && off(all[i]) && (forall c :: c in ranked ==> norm(c.model) != norm(all[i])) &&
        forall j :: 0 <= j < i ==> !off(all[j]) || norm(all[j]) != norm(all[i])
  {
    var all, taken := chain.Configured(), Norms(ModelsOf(ranked), norm);
    at := FirstOfEachInOrder(all, off, norm, taken);
    forall i: nat | i < |all|
      ensures norm(all[i]) !in taken <==> forall c :: c in ranked ==> norm(c.model) != norm(all[i])
    {
      FormsOfRanked(ranked, norm, norm(all[i]));
    }
    forall i: nat
      ensures i in at <==>
        i < |all| && off(all[i]) && (forall c :: c in ranked ==> norm(c.model) != norm(all[i])) &&
        forall j :: 0 <= j < i ==> !off(all[j]) || norm(all[j]) != norm(all[i])
    {
      assert i in at <==> FirstOfForm(all, off, norm, taken, i);
    }
  }

  lemma FormsOfRanked(ranked: seq<Candidate>, norm: ModelId -> ModelId, form: ModelId)
    ensures form in Norms(ModelsOf(ranked), norm) <==> exists c :: c in ranked && norm(c.model) == form
  {
    if form in Norms(ModelsOf(ranked), norm) {
      var id :| id in ModelsOf(ranked) && norm(id) == form;
      var i :| 0 <= i < |ranked| && ModelsOf(ranked)[i] == id;
      assert ranked[i] in ranked;
    }
    if c :| c in ranked && norm(c.model) == form {
      var i :| 0 <= i < |ranked| && ranked[i] == c;
      assert ModelsOf(ranked)[i] in ModelsOf(ranked);
    }
  }

  /** The two lists: what is ranked, and what is configured but switched off. */
  method RankModels(modelId: ModelId, chain: StageChain, off: ModelId -> bool, norm: ModelId -> ModelId)
    returns (ids: seq<ModelId>, switchedOff: seq<ModelId>)
    ensures ids == [modelId] + RankedBackups(modelId, chain, off, norm)
    ensures switchedOff == FirstOfEach(chain.Configured(), off, norm, Norms(ids, norm))
  {
    var backups := [];
    if chain.switches {
      backups := KeepFirsts(chain.backups, id => !off(id), norm, {norm(modelId)});
    }
    ids := [modelId] + backups;
    switchedOff := KeepFirsts(chain.Configured(), off, norm, Norms(ids, norm));
  }

  /** No model stands twice in the two lists, and none that belongs there is missing. */
  lemma RankedModelsDiffer(modelId: ModelId, chain: StageChain, off: ModelId -> bool, norm: ModelId -> ModelId)
    ensures
      var ids := [modelId] + RankedBackups(modelId, chain, off, norm);
      var switchedOff := FirstOfEach(chain.Configured(), off, norm, Norms(ids, norm));
      DistinctUnder(norm, ids + switchedOff) &&
      (chain.switches ==> forall id :: id in chain.backups && !off(id) ==> norm(id) in Norms(ids, norm)) &&
      (forall id :: id in switchedOff ==> id in chain.Configured() && off(id)) &&
      (forall id :: id in chain.Configured() && off(id) ==> norm(id) in Norms(ids + switchedOff, norm))
  {
    var backups := RankedBackups(modelId, chain, off, norm);
    if chain.switches {
      FirstOfEachKeepsEveryModelOnce(chain.backups, id => !off(id), norm, {norm(modelId)});
    }
    var ids := [modelId] + backups;
    JoinDistinct(norm, [modelId], backups);
    var switchedOff := FirstOfEach(chain.Configured(), off, norm, Norms(ids, norm));
    FirstOfEachKeepsEveryModelOnce(chain.Configured(), off, norm, Norms(ids, norm));
    JoinDistinct(norm, ids, switchedOff);
    assert forall x :: x in ids + switchedOff <==> x in ids || x in switchedOff;
    assert forall x :: x in ids <==> x == modelId || x in backups;
  }

  lemma DifferentModels(ranked: seq<Candidate>, switchedOff: seq<ModelId>, norm: ModelId -> ModelId)
    requires DistinctUnder(norm, ModelsOf(ranked) + switchedOff)
    ensures DistinctCandidates(ranked)
  {
    forall i, j | 0 <= i < j < |ranked|
      ensures ranked[i].model != ranked[j].model
    {
      var all := ModelsOf(ranked) + switchedOff;
      assert all[i] == ranked[i].model && all[j] == ranked[j].model;
    }
  }

  /** `openV1RunnerSelection`: the operation's model first, then the enabled backups, then, never ranked, the
      configured models that are switched off. `from` and `offFrom` say where they stand in the settings. */
  method OpenRunnerSelection(modelId: ModelId, chain: StageChain, off: ModelId -> bool, norm: ModelId -> ModelId,
                             serves: ModelId -> bool)
    returns (selection: Selection, ghost from: seq<nat>, ghost offFrom: seq<nat>)
    ensures fresh(selection) && selection.Valid() && selection.cursor == 0
    ensures selection.ranked != [] && selection.ranked[0].model == modelId
    ensures DistinctUnder(norm, ModelsOf(selection.ranked) + selection.switchedOff)
    ensures forall c :: c in selection.ranked ==> c.supported == serves(c.model)
    ensures chain.switches ==>
      forall id :: id in chain.backups && !off(id) ==> norm(id) in Norms(ModelsOf(selection.ranked), norm)
    ensures forall id :: id in selection.switchedOff ==> id in chain.Configured() && off(id)
    ensures forall id :: id in chain.Configured() && off(id) ==>
      norm(id) in Norms(ModelsOf(selection.ranked) + selection.switchedOff, norm)
    // ranked next, where the stage may switch: the first enabled backup of every other form, in the order and with the
    // spelling of the settings
    ensures |from| == |selection.ranked| - 1 && forall j, k :: 0 <= j < k < |from| ==> from[j] < from[k]
    ensures forall k :: 0 <= k < |from| ==>
      from[k] < |chain.backups| && selection.ranked[k + 1].model == chain.backups[from[k]]
    ensures forall i: nat :: i in from <==>
        chain.switches && i < |chain.backups| && !off(chain.backups[i]) && norm(chain.backups[i]) != norm(modelId) &&
        forall j :: 0 <= j < i ==> off(chain.backups[j]) || norm(chain.backups[j]) != norm(chain.backups[i])
    // switched off, whether the stage may switch or not: of the primary and the backups the first of every form whose
    // provider is disabled, unless the form is ranked
    ensures |offFrom| == |selection.switchedOff| && forall j, k :: 0 <= j < k < |offFrom| ==> offFrom[j] < offFrom[k]
    ensures
      var all := (if chain.primary.Some? then [chain.primary.value] else []) + chain.backups;
      (forall k :: 0 <= k < |offFrom| ==> offFrom[k] < |all| && selection.switchedOff[k] == all[offFrom[k]]) &&
      forall i: nat :: i in offFrom <==>
        i < |all| && off(all[i]) && (forall c :: c in selection.ranked ==> norm(c.model) != norm(all[i])) &&
        forall j :: 0 <= j < i ==> !off(all[j]) || norm(all[j]) != norm(all[i])
  {
    var ids, switchedOff := RankModels(modelId, chain, off, norm);
    var ranked := CandidatesOf(ids, serves);
    RankedModelsDiffer(modelId, chain, off, norm);
    DifferentModels(ranked, switchedOff, norm);
    from := BackupsInOrder(modelId, chain, off, norm);
    offFrom := SwitchedOffInOrder(chain, off, norm, ranked);
    BehindTheFirst(modelId, ids[1..], ranked);
    selection := new Selection(ranked, switchedOff);
  }

  function CandidatesOf(ids: seq<ModelId>, serves: ModelId -> bool): (ranked: seq<Candidate>)
    ensures ModelsOf(ranked) == ids
    ensures forall c :: c in ranked ==> c.supported == serves(c.model)
  {
    seq(|ids|, i requires 0 <= i < |ids| => Candidate(ids[i], serves(ids[i])))
  }

  lemma BehindTheFirst(modelId: ModelId, backups: seq<ModelId>, ranked: seq<Candidate>)
    requires ModelsOf(ranked) == [modelId] + backups
    ensures |ranked| == |backups| + 1 && ranked[0].model == modelId
    ensures forall k :: 0 <= k < |backups| ==> ranked[k + 1].model == backups[k]
  {
    forall k | 0 <= k < |backups|
      ensures ranked[k + 1].model == backups[k]
    {
      assert ModelsOf(ranked)[k + 1] == backups[k];
    }
  }

  function ModelsOf(ranked: seq<Candidate>): (ms: seq<ModelId>)
    ensures |ms| == |ranked| && forall i :: 0 <= i < |ms| ==> ms[i] == ranked[i].model
  {
    seq(|ranked|, i requires 0 <= i < |ranked| => ranked[i].model)
  }

  // ---------- the selection itself ----------

  datatype Reservation =
    | Reserved(model: ModelId)
    | CandidateUnavailable(model: ModelId)
    | NoneRemaining(candidatesExhausted: bool)

  class Selection {
    const ranked: seq<Candidate>
    const switchedOff: seq<ModelId>  // configured models whose provider is disabled; never ranked
    var cursor: nat

    constructor (ranked: seq<Candidate>, switchedOff: seq<ModelId>)
      requires DistinctCandidates(ranked)
      ensures Valid() && this.ranked == ranked && this.switchedOff == switchedOff && cursor == 0
    {
      this.ranked, this.switchedOff, this.cursor := ranked, switchedOff, 0;
    }

    ghost predicate Valid()
      reads this
    {
      cursor <= |ranked| && DistinctCandidates(ranked)
    }

    function CandidateCount(): nat { SupportedCount(ranked) }

    /** Walk to the next ranked candidate; one that cannot serve the mode settles the attempt at once. */
    method ReserveNext(session: Session, id: AttemptId) returns (r: Reservation)
      requires Valid() && session.Valid()
      requires session.attempts != [] && Last(session.attempts) == Attempt(id, None, false, false, None)
      requires session.adopted.None?
      modifies this`cursor, session
      ensures Valid() && session.Valid() && session.nextId == old(session.nextId) && session.adopted.None?
      ensures r.NoneRemaining? ==>
        cursor == old(cursor) && session.attempts == old(session.attempts) &&
        (r.candidatesExhausted <==> CandidateCount() > 0) && (CandidateCount() > 0 ==> cursor == |ranked|)
      ensures !r.NoneRemaining? ==>
        cursor == old(cursor) + 1 && r.model == ranked[old(cursor)].model &&
        (r.Reserved? <==> ranked[old(cursor)].supported)
      ensures r.Reserved? ==>
        session.attempts == WithLast(old(session.attempts), Attempt(id, Some(r.model), false, false, None))
      ensures r.CandidateUnavailable? ==>
        session.attempts ==
        WithLast(old(session.attempts), Attempt(id, None, false, false, Some(UnavailableBeforeInvocation)))
    {
      if CandidateCount() == 0 {
        return NoneRemaining(false);
      }
      if cursor >= |ranked| {
        return NoneRemaining(true);
      }
      var entry := ranked[cursor];
      cursor := cursor + 1;
      if !entry.supported {
        session.ReportAttemptOutcome(id, UnavailableBeforeInvocation);
        return CandidateUnavailable(entry.model);
      }
      session.Reserve(id, entry.model);
      return Reserved(entry.model);
    }
  }
}
