/** Coordinator outcomes and the attempt history that travels on them
    (src/types/taskActionOutcomeV1.ts, `attachPriorRejectedAttemptsV1` in src/actions/taskActionCoordinatorV1.ts,
    `attemptHistoryOfOutcomeV1` in src/actions/productionTaskActionRuntimeV1.ts). */
module TaskOutcome {
  import opened Wrappers
  import opened ProviderSelection

  /** A transport's fault class; only the wall-clock deadline is told apart. */
  datatype Fault = InvocationDeadlineExceeded | OtherFault(name: string)

  datatype Code =
    | AttemptIdentityAttachmentFailed
    | ToolSessionUnavailable
    | ChatTransactionRejected
    | ChatTransactionNotRecorded
    | PreInvocationHookFailed
    | AdmissionAborted
    | SetupFailed
    | TransportFault(fault: Fault)
    | CallerCancelledCode
    | ProviderCancelledCode
    | ResultLimitExceeded
    | ResultCorrelationMismatch
    | ContentSchemaMismatch
    | BrokenFrame
    | ContentContractFailed
    | ResultSpoolFailed
    | PromotionFailed
    | ResumedRunAskedAgain
    | DeclaredByProvider(name: string)
    | NotEligible
    | InvalidTaskStage
    | InvalidActionInput
    | IndeterminatePriorAttempt
    | InvalidResumeIdempotencyId
    | ResumeBindingMismatch
    | ResumeActionUnavailable
    | ResumeSemanticsChanged
    | AnswersNotSubmitted
    | InteractionAlreadySettled
    | ResumeNotSettled

  /** One attempt a round made and rejected; `skipOnRetry` when it failed before any response. */
  datatype AttemptRecord = AttemptRecord(attemptId: AttemptId, code: Code, model: Option<ModelId>, skipOnRetry: bool)

  /** What became of one candidate of an exhausted chain. */
  datatype Reason =
    | NotAttempted
    | CannotServeMode
    | ReservedForInvocation
    | ProviderDisabled
    | Attempted(last: AttemptOutcome)

  datatype CandidateStatus = CandidateStatus(model: ModelId, reason: Reason, deferred: bool, attemptIds: seq<AttemptId>)

  datatype Chain = Chain(candidates: seq<CandidateStatus>, unclaimed: seq<AttemptId>)

  datatype Unavailability =
    | WorkflowStorageUnavailable
    | ProviderModeUnavailable
    | CandidatesExhausted
    | CandidatesDeferred

  datatype Outcome =
    | Completed(attempt: AttemptId)
    | Questions(attempt: AttemptId)
    | Cancelled(byUser: bool)
    | Failed(code: Code, retryable: bool, attemptId: Option<AttemptId>, model: Option<ModelId>,
             prior: seq<AttemptRecord>)
    | Malformed(code: Code, attemptId: Option<AttemptId>, model: Option<ModelId>, used: Option<nat>,
                budget: Option<nat>, prior: seq<AttemptRecord>)
    | Unavailable(why: Unavailability, chain: Option<Chain>)
    | DuplicateRejected
    | RecoveryRequired

  /** A failure with no attempt history on it. */
  function Failure(code: Code, retryable: bool, model: Option<ModelId>): Outcome
  {
    Failed(code, retryable, None, model, [])
  }

  // ---------- the history ----------

  function Ids(h: seq<AttemptRecord>): (ids: seq<AttemptId>)
    ensures |ids| == |h|
    ensures forall i :: 0 <= i < |h| ==> ids[i] == h[i].attemptId
  {
    seq(|h|, i requires 0 <= i < |h| => h[i].attemptId)
  }

  ghost predicate Distinct(ids: seq<AttemptId>)
  {
    forall i, j :: 0 <= i < j < |ids| ==> ids[i] != ids[j]
  }

  /** `history.filter(a => a.attemptId !== id)`. */
  function Without(h: seq<AttemptRecord>, id: Option<AttemptId>): seq<AttemptRecord>
  {
    if h == [] then []
    else Without(h[..|h| - 1], id) + (if Some(Last(h).attemptId) == id then [] else [Last(h)])
  }

  /** Put the history on a malformed or failed outcome: everything before its own attempt is prior to it. */
  function AttachHistory(o: Outcome, h: seq<AttemptRecord>): Outcome
  {
    if !(o.Malformed? || o.Failed?) || h == [] then o
    else
      var before := if o.attemptId == Some(Last(h).attemptId) then h[..|h| - 1] else Without(h, o.attemptId);
      if before == [] then o else o.(prior := before)
  }

  /** The record an attempt's own outcome turns into. */
  function OwnRecord(o: Outcome): AttemptRecord
    requires (o.Malformed? || o.Failed?) && o.attemptId.Some?
  {
    AttemptRecord(o.attemptId.value, o.code, o.model, false)
  }

  /** Every attempt an outcome lists, its own one last; what a fresh operation is seeded with. */
  function HistoryOf(o: Outcome): Option<seq<AttemptRecord>>
  {
    if !(o.Malformed? || o.Failed?) then None
    else
      var own := if o.attemptId.Some? then [OwnRecord(o)] else [];
      if o.prior + own == [] then None else Some(o.prior + own)
  }

  lemma {:induction false} WithoutKeeps(h: seq<AttemptRecord>, id: Option<AttemptId>)
    ensures forall r :: r in Without(h, id) <==> r in h && Some(r.attemptId) != id
  {
    if h != [] {
      var front := h[..|h| - 1];
      WithoutKeeps(front, id);
      assert h == front + [Last(h)];
    }
  }

  /** Records of other attempts all stay, in their order. */
  lemma {:induction false} WithoutKeepsOthers(h: seq<AttemptRecord>, id: Option<AttemptId>)
    requires forall r :: r in h ==> Some(r.attemptId) != id
    ensures Without(h, id) == h
  {
    if h != [] {
      var front := h[..|h| - 1];
      assert h == front + [Last(h)];
      WithoutKeepsOthers(front, id);
    }
  }

  /** Attaching the history changes nothing else of a report. */
  lemma AttachKeepsReport(o: Outcome, h: seq<AttemptRecord>)
    requires o.Malformed? || o.Failed?
    ensures AttachHistory(o, h) == o.(prior := AttachHistory(o, h).prior)
  {
  }

  /** An outcome that is the latest entry gives the whole history back, record for record. */
  lemma LatestGivesHistoryBack(o: Outcome, h: seq<AttemptRecord>)
    requires (o.Malformed? || o.Failed?) && o.prior == [] && h != [] && o.attemptId.Some?
    requires Last(h) == OwnRecord(o)
    ensures HistoryOf(AttachHistory(o, h)) == Some(h)
  {
    assert h == h[..|h| - 1] + [Last(h)];
  }

  lemma {:induction false} WithoutNothing(h: seq<AttemptRecord>)
    ensures Without(h, None) == h
  {
    if h != [] {
      WithoutNothing(h[..|h| - 1]);
      assert h == h[..|h| - 1] + [Last(h)];
    }
  }

  /** An outcome that names no attempt lists the whole history as prior to it. */
  lemma NamelessListsHistory(o: Outcome, h: seq<AttemptRecord>)
    requires (o.Malformed? || o.Failed?) && o.prior == [] && h != [] && o.attemptId.None?
    ensures HistoryOf(AttachHistory(o, h)) == Some(h)
  {
    WithoutNothing(h);
    assert h + [] == h;
  }

  lemma IdOfRecord(h: seq<AttemptRecord>, r: AttemptRecord)
    requires r in h
    ensures r.attemptId in Ids(h)
  {
    var k :| 0 <= k < |h| && h[k] == r;
    assert Ids(h)[k] == r.attemptId;
  }

  lemma OthersStayPrior(o: Outcome, h: seq<AttemptRecord>, r: AttemptRecord)
    requires (o.Malformed? || o.Failed?) && o.prior == [] && r in h && o.attemptId != Some(r.attemptId)
    ensures r in AttachHistory(o, h).prior && AttachHistory(o, h).attemptId == o.attemptId
  {
    if o.attemptId == Some(Last(h).attemptId) {
      assert h == h[..|h| - 1] + [Last(h)];
      assert r in h[..|h| - 1];
    } else {
      WithoutKeeps(h, o.attemptId);
      assert r in Without(h, o.attemptId);
    }
  }

  /** Whatever attempt an outcome reports, attaching the history loses none of its attempts. */
  lemma AttachLosesNoAttempt(o: Outcome, h: seq<AttemptRecord>, r: AttemptRecord)
    requires (o.Malformed? || o.Failed?) && o.prior == [] && r in h
    ensures HistoryOf(AttachHistory(o, h)).Some? && r.attemptId in Ids(HistoryOf(AttachHistory(o, h)).value)
  {
    var a := AttachHistory(o, h);
    if o.attemptId == Some(r.attemptId) {
      var own := OwnRecord(a);
      assert HistoryOf(a) == Some(a.prior + [own]);
      assert (a.prior + [own])[|a.prior|] == own;
      IdOfRecord(a.prior + [own], own);
    } else {
      OthersStayPrior(o, h, r);
      IdOfRecord(HistoryOf(a).value, r);
    }
  }

  // ---------- which candidates a retry passes over ----------

  function Tried(h: seq<AttemptRecord>): set<ModelId>
  {
    set i | 0 <= i < |h| && h[i].model.Some? :: h[i].model.value
  }

  /** While an enabled candidate is untried every tried one is passed over; afterwards only those that failed
      before any response. */
  function SkipOnRetry(h: seq<AttemptRecord>, candidateCount: nat): set<ModelId>
  {
    var untriedRemain := candidateCount > 0 && |Tried(h)| < candidateCount;
    set i | 0 <= i < |h| && h[i].model.Some? && (untriedRemain || h[i].skipOnRetry) :: h[i].model.value
  }

  /** The rule by the records alone: a model is passed over when one of its records failed before any response, or when
      the records name fewer models than there are candidates. */
  lemma SkipOnRetryMeans(h: seq<AttemptRecord>, candidateCount: nat, m: ModelId)
    ensures m in SkipOnRetry(h, candidateCount) <==>
      exists r :: r in h && r.model == Some(m) &&
        (r.skipOnRetry || |set x | x in h && x.model.Some? :: x.model.value| < candidateCount)
  {
    assert Tried(h) == set x | x in h && x.model.Some? :: x.model.value;
    if r :| r in h && r.model == Some(m) && (r.skipOnRetry || |Tried(h)| < candidateCount) {
      var i :| 0 <= i < |h| && h[i] == r;
      assert h[i].model.value == m;
    }
  }
}
