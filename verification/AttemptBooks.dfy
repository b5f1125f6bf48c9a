/** The values one provider round keeps (`runProviderRow` in src/actions/taskActionCoordinatorV1.ts), what its loop
    keeps true of them, and what a finished round promises. */
module AttemptBooks {
  import opened Wrappers
  import opened ProviderSelection
  import opened TaskOutcome
  import opened RoundParts
  import opened ChainExhaustion
  import opened AttemptLog

  // ---------- the operation ----------

  /** `seed`: invocations an earlier operation of the same press already spent; `prior`: the attempts it made;
      `resumed`: a Resume drive, gated by the invocation claim. */
  datatype Operation = Operation(row: Row, seed: Option<nat>, prior: seq<AttemptRecord>, resumed: bool)

  /** Does this operation keep a pending record? */
  predicate KeepsRecord(op: Operation) { !op.resumed && op.row.AsksQuestions() }

  function Seed(op: Operation): nat { if op.seed.Some? then op.seed.value else 0 }

  const FLOOR: nat := 3

  function Max(a: nat, b: nat): nat { if a < b then b else a }

  /** `max(3, candidateCount)`. */
  function Budget(candidateCount: nat): nat { Max(FLOOR, candidateCount) }

  const MAX_NETWORK_RETRIES: nat := 1
  const MAX_CAPACITY_RETRIES: nat := 2
  const MAX_REPEATS: nat := MAX_NETWORK_RETRIES + MAX_CAPACITY_RETRIES

  /** A reservation carried into the next turn: the admitted one, or a retry of the same candidate. */
  datatype Carried = Carried(id: AttemptId, model: ModelId, assembled: bool)

  datatype Round = Round(
    invocations: nat,
    history: seq<AttemptRecord>,
    lastRejected: Option<Outcome>,
    armed: bool,
    freshReserved: nat,
    networkRetries: nat,
    capacityRetries: nat,
    retryIds: set<AttemptId>,
    gateChecked: bool,
    carried: Option<Carried>)

  // ---------- decisions of the loop ----------

  /** Is there budget for a repeat after every candidate not yet reserved had its turn? */
  predicate HasRetryBudget(v: Round, candidateCount: nat)
  {
    Budget(candidateCount) - v.invocations - 1 >=
    (if candidateCount > v.freshReserved then candidateCount - v.freshReserved else 0)
  }

  predicate UntriedAhead(v: Round, candidateCount: nat)
  {
    candidateCount > v.freshReserved && v.invocations < Budget(candidateCount)
  }

  /** Is this failure one that earns the same candidate another try: a dropped connection once, a provider out of
      capacity twice? */
  predicate Repeatable(v: Round, networkFault: bool, providerCapacity: bool, candidateCount: nat)
  {
    ((networkFault && v.networkRetries < MAX_NETWORK_RETRIES) ||
     (providerCapacity && v.capacityRetries < MAX_CAPACITY_RETRIES)) &&
    !(v.armed && v.invocations >= Budget(candidateCount)) && HasRetryBudget(v, candidateCount)
  }

  /** The armed malformed-result budget never changes a retry decision: the candidate-first budget implies it. */
  lemma ArmedBudgetIsRedundant(v: Round, candidateCount: nat)
    ensures HasRetryBudget(v, candidateCount) ==> v.invocations < Budget(candidateCount)
    ensures UntriedAhead(v, candidateCount) && HasRetryBudget(v, candidateCount) ==>
              Budget(candidateCount) - v.invocations >= 2
  {
  }

  // ---------- the round's objects as values ----------

  datatype Ledger = Ledger(
    ranked: seq<Candidate>,
    cursor: nat,
    attempts: seq<Attempt>,
    nextId: AttemptId,
    calls: seq<AttemptId>)

  function Count(l: Ledger): nat { SupportedCount(l.ranked) }

  function Passed(op: Operation, l: Ledger): set<ModelId> { SkipOnRetry(op.prior, Count(l)) }

  /** The whole history: the earlier operations' attempts, then this round's failures. */
  function History(op: Operation, s: Surroundings, l: Ledger): seq<AttemptRecord>
  {
    op.prior + Entries(op.row, s, l.attempts)
  }

  /** A malformed result; for rows whose results are retried, stamped with the press's call count so far. */
  function Stamped(op: Operation, l: Ledger, id: AttemptId, model: Option<ModelId>, code: Code): Outcome
  {
    var stamp := op.row.RetryEligible();
    Malformed(code, Some(id), model, if stamp then Some(Seed(op) + |l.calls|) else None,
              if stamp then Some(Budget(Count(l))) else None, [])
  }

  function BrokenContract(id: AttemptId, model: Option<ModelId>): Outcome
  {
    Failed(ContentContractFailed, false, Some(id), model, [])
  }

  /** What an attempt rejected on the way is reported as, if the round ends on it after all. */
  function RejectedOutcome(op: Operation, l: Ledger, a: Attempt): Outcome
  {
    if a.outcome == Some(ContractFailurePreFallback) then BrokenContract(a.id, a.model)
    else Stamped(op, l, a.id, a.model, BrokenFrame)
  }

  function LastRejected(op: Operation, l: Ledger): Option<Outcome>
  {
    var r := LastRejection(l.attempts);
    if r.None? then None else Some(RejectedOutcome(op, l, r.value))
  }

  // ---------- what the loop keeps ----------

  /** The log is one group for every supported candidate walked so far, its original followed by its few repeats. */
  ghost predicate RankedWalk(l: Ledger)
  {
    l.cursor <= |l.ranked| && DistinctCandidates(l.ranked) &&
    Walk(l.ranked[..l.cursor], Trail(l.attempts)) && FewRepeats(Trail(l.attempts), MAX_REPEATS)
  }

  /** May the round go on to another attempt: was there none, or none that was reserved, or was its candidate taken or
      else passed over? */
  predicate GoesPast(op: Operation, candidateCount: nat, a: Attempt)
  {
    a.model.None? || a.claimed || a.model.value in SkipOnRetry(op.prior, candidateCount)
  }

  predicate LastIsPast(op: Operation, l: Ledger)
  {
    l.attempts != [] ==> GoesPast(op, Count(l), Last(l.attempts))
  }

  /** A candidate that the retry rule passes over is never claimed, and no other one is left unclaimed before the round
      goes on. */
  ghost predicate PassesOver(op: Operation, l: Ledger)
  {
    (forall a :: a in l.attempts && a.claimed ==> a.model.Some? && a.model.value !in Passed(op, l)) &&
    (forall i :: 0 <= i < |l.attempts| - 1 ==> GoesPast(op, Count(l), l.attempts[i]))
  }

  /** The first `settled` provider calls are those of the settled attempts, in their order. */
  ghost predicate CallsMatch(s: Surroundings, l: Ledger, settled: nat)
  {
    settled <= |l.calls| && l.calls[..settled] == SentIds(s, l.attempts)
  }

  ghost predicate ReservesMatch(op: Operation, l: Ledger, v: Round)
    requires l.cursor <= |l.ranked|
  {
    v.freshReserved <= SupportedCount(l.ranked[..l.cursor]) &&
    (op.prior == [] ==> v.freshReserved == SupportedCount(l.ranked[..l.cursor]))
  }

  /** The history, the rejected outcome and the retry counters say what the log says. */
  ghost predicate Tallies(op: Operation, s: Surroundings, l: Ledger, v: Round)
  {
    v.invocations == Seed(op) + |l.calls| && v.history == History(op, s, l) && v.lastRejected == LastRejected(op, l) &&
    v.retryIds == RepeatIds(Trail(l.attempts)) &&
    TailRepeats(Trail(l.attempts)) == v.networkRetries + v.capacityRetries
  }

  predicate Limits(op: Operation, v: Round)
  {
    v.networkRetries <= MAX_NETWORK_RETRIES && v.capacityRetries <= MAX_CAPACITY_RETRIES &&
    (v.armed ==> op.row.RetryEligible()) && (!op.resumed ==> v.gateChecked)
  }

  /** The loop's variables, all of them functions of the log. `settled` counts the provider calls whose attempt is
      settled; at a loop head those are all of them. */
  ghost predicate Books(op: Operation, s: Surroundings, l: Ledger, v: Round, settled: nat)
  {
    RankedWalk(l) && CallsMatch(s, l, settled) && ReservesMatch(op, l, v) && PassesOver(op, l) &&
    Tallies(op, s, l, v) && Limits(op, v)
  }

  /** Room for the next call: after the first one there is budget left, and in an unseeded operation the budget
      still covers one first attempt for every candidate not yet reserved, `reserved` more besides. */
  ghost predicate Room(op: Operation, l: Ledger, v: Round, reserved: nat)
  {
    (l.calls != [] ==> v.invocations < Budget(Count(l))) &&
    (Seed(op) == 0 ==> Budget(Count(l)) - v.invocations >= Count(l) - v.freshReserved + reserved)
  }

  // ---------- what the log says, against what really happened ----------

  /** Why a reserved attempt may go unclaimed: its model is passed over, or its tool session or its pending record
      cannot be had. */
  predicate HasCause(op: Operation, s: Surroundings, candidateCount: nat, id: AttemptId, model: ModelId)
  {
    model in SkipOnRetry(op.prior, candidateCount) || !s.assemble(id) ||
    (KeepsRecord(op) && !(s.admission(id).Lands? && s.discards(id)))
  }

  /** An attempt got as far as its attachments let it, and once settled says what happened to it: a sent one what its
      reply was, an unsent one that there was a cause. */
  predicate TrueTo(op: Operation, s: Surroundings, candidateCount: nat, a: Attempt)
  {
    (a.model.Some? ==> s.attach(a.id)) && (a.claimed ==> s.assemble(a.id)) &&
    (a.invoked ==> s.hook(a.id) && !s.prepare(a.id).SetupThrows?) &&
    (a.outcome.Some? ==>
      if a.invoked then
        if s.prepare(a.id).CancelledUnsent? then a.outcome == Some(CallerCancelled)
        else RecordedAs(op.row, s.reply(a.id), a.outcome.value)
      else
        a.outcome == Some(UnavailableBeforeInvocation) &&
        if a.claimed then s.prepare(a.id).SetupThrows?
        else a.model.Some? ==> HasCause(op, s, candidateCount, a.id, a.model.value))
  }

  ghost predicate LogIsTrue(op: Operation, s: Surroundings, l: Ledger)
  {
    forall a :: a in l.attempts ==> TrueTo(op, s, Count(l), a)
  }

  // ---------- what a finished round promises ----------

  datatype Exit = Returned(outcome: Outcome) | Threw

  /** One operation makes at most `max(1, budget - seed)` provider calls. */
  ghost predicate WithinBudget(op: Operation, l: Ledger)
  {
    |l.calls| <= Max(1, if Budget(Count(l)) > Seed(op) then Budget(Count(l)) - Seed(op) else 0)
  }

  /** Did the round end because the budget or the time ran out, with the last response not started? */
  predicate EndsOnBudgetOrDeadline(op: Operation, s: Surroundings, last: Attempt)
  {
    last.outcome == Some(FailedBeforeResponse) ||
    (op.row.RetryEligible() && last.outcome == Some(ContractFailure)) ||
    (op.row.RetryEligible() && last.outcome == Some(MalformedResult) && BrokenFraming(s.reply(last.id)))
  }

  /** In an unseeded operation that only happens once every candidate has been reserved. */
  ghost predicate CandidateFirst(op: Operation, s: Surroundings, l: Ledger)
    requires l.cursor <= |l.ranked|
  {
    Seed(op) == 0 && op.prior == [] && l.attempts != [] && EndsOnBudgetOrDeadline(op, s, Last(l.attempts)) ==>
      SupportedCount(l.ranked[..l.cursor]) == Count(l)
  }

  function PlainlyMalformed(code: Code, model: Option<ModelId>): Outcome
  {
    Malformed(code, None, model, None, None, [])
  }

  /** What the settlement lease phase makes of completed content. */
  function CompletionOutcome(op: Operation, s: Surroundings, id: AttemptId): Outcome
  {
    if op.row.needsLease && !s.leaseFree(id) then DuplicateRejected
    else if s.promotes(id) then Completed(id)
    else Failure(PromotionFailed, false, None)
  }

  /** Questions surface only once their interaction is recorded; a resumed run may not ask again. */
  function QuestionsOutcome(op: Operation, s: Surroundings, id: AttemptId, model: Option<ModelId>): Outcome
  {
    if op.resumed then Failure(ResumedRunAskedAgain, true, model)
    else
      match s.posts(id)
      case Lands => Questions(id)
      case StorageDown => Unavailable(WorkflowStorageUnavailable, None)
      case ContentRefused(_) => Failure(ChatTransactionNotRecorded, true, model)
  }

  /** A refused pending record; an identical prompt would be refused for its size again. */
  function AdmissionRefusal(fate: WriteFate): Outcome
  {
    match fate
    case StorageDown => Unavailable(WorkflowStorageUnavailable, None)
    case ContentRefused(sizeDriven) => Failure(ChatTransactionRejected, !sizeDriven, None)
    case Lands => Failure(ChatTransactionRejected, true, None)  // the earlier record could not be discarded
  }

  /** The history goes along unless it holds this failure alone. */
  function AttachIfPrior(o: Outcome, h: seq<AttemptRecord>): Outcome { if |h| > 1 then AttachHistory(o, h) else o }

  /** A failed transport that ended the round; of a deadline or a started response nobody names the attempt. */
  function TransportEnding(r: Reply, id: AttemptId, model: Option<ModelId>): Outcome
    requires r.TransportFailure?
  {
    var named := !r.responseStarted && !r.fault.InvocationDeadlineExceeded?;
    Failed(TransportFault(r.fault), !r.responseStarted, if named then Some(id) else None, model, [])
  }

  /** A result that could not be used and ended the round, by its reply. */
  function MalformedEnding(op: Operation, s: Surroundings, l: Ledger, id: AttemptId, model: Option<ModelId>): Outcome
  {
    var r := s.reply(id);
    if r == Unsealable(SpoolStoreMissing) then Unavailable(WorkflowStorageUnavailable, None)
    else if r == Unsealable(SpoolUnclaimable) then Failure(ResultSpoolFailed, false, None)
    else if BrokenFraming(r) then AttachHistory(Stamped(op, l, id, model, BrokenFrame), History(op, s, l))
    else PlainlyMalformed(ContentSchemaMismatch, model)
  }

  /** What an exhaustion reports after a rejected result: a failure that came later, when that result was malformed,
      else the result itself. */
  function RejectionReport(rejected: Outcome, h: seq<AttemptRecord>): Outcome
    requires h != [] && (rejected.Malformed? || rejected.Failed?)
  {
    var latest := Last(h);
    if latest.skipOnRetry && rejected.Malformed? && rejected.attemptId != Some(latest.attemptId) then
      AttachHistory(Failed(latest.code, true, Some(latest.attemptId), latest.model, []), h)
    else AttachHistory(rejected, h)
  }

  /** The statuses the registry hands out when nothing remains. */
  function Evidence(ranked: seq<Candidate>, cursor: nat, switchedOff: seq<ModelId>): (e: seq<CandidateStatus>)
    ensures |e| == |ranked| + |switchedOff|
  {
    seq(|ranked|, i requires 0 <= i < |ranked| =>
      CandidateStatus(ranked[i].model,
                      if !ranked[i].supported then CannotServeMode
                      else if i < cursor then ReservedForInvocation else NotAttempted,
                      false, [])) +
    seq(|switchedOff|, i requires 0 <= i < |switchedOff| =>
      CandidateStatus(switchedOff[i], ProviderDisabled, false, []))
  }

  /** Every candidate that was not passed over at selection time waits for its quota. A switched-off candidate
      counts as not passed over. */
  predicate AllInvokedDeferred(candidates: seq<CandidateStatus>)
  {
    (exists i :: 0 <= i < |candidates| && !candidates[i].reason.CannotServeMode?) &&
    (forall i :: 0 <= i < |candidates| && !candidates[i].reason.CannotServeMode? ==> candidates[i].deferred)
  }

  function WhyExhausted(candidateCount: nat, chain: Chain): Unavailability
  {
    if candidateCount == 0 then ProviderModeUnavailable
    else if AllInvokedDeferred(chain.candidates) then CandidatesDeferred
    else CandidatesExhausted
  }

  /** The exhausted chain: every ranked candidate with the attempts the cursor walk gives it. */
  ghost predicate ChainReport(l: Ledger, switchedOff: seq<ModelId>, quota: AttemptId -> bool, o: Outcome)
  {
    o.Unavailable? && o.chain.Some? && o.why == WhyExhausted(Count(l), o.chain.value) &&
    var evidence := Evidence(l.ranked, l.cursor, switchedOff);
    var claims := Claims(Models(evidence), ReservedOf(l.attempts), RepeatIds(Trail(l.attempts)));
    EnrichedBy(o.chain.value, evidence, l.attempts, claims, quota)
  }

  /** Nothing remains for the last attempt: the round reports what it last rejected, or else the exhausted chain. */
  ghost predicate ExhaustionReport(op: Operation, s: Surroundings, l: Ledger, switchedOff: seq<ModelId>, o: Outcome)
  {
    (Count(l) > 0 ==> l.cursor == |l.ranked|) &&
    match LastRejected(op, l)
    case None => ChainReport(l, switchedOff, s.quota, o)
    case Some(rejected) => History(op, s, l) != [] && o == RejectionReport(rejected, History(op, s, l))
  }

  /** The last attempt was never sent, so the round ended for one of these reasons. */
  ghost predicate UnsentEnding(op: Operation, s: Surroundings, l: Ledger, switchedOff: seq<ModelId>, o: Outcome)
    requires l.attempts != []
  {
    var last := Last(l.attempts);
    if !s.attach(last.id) then o == Failure(AttemptIdentityAttachmentFailed, false, None) && last.model.None?
    else if last.model.None? then ExhaustionReport(op, s, l, switchedOff, o)
    else if !s.assemble(last.id) then o == Failure(ToolSessionUnavailable, false, None)
    else
      o == AdmissionRefusal(s.admission(last.id)) && KeepsRecord(op) &&
      !(s.admission(last.id).Lands? && s.discards(last.id))
  }

  /** Whatever comes back is what the log, its last attempt and that attempt's reply make it, and nothing but a gate
      refusal leaves that attempt open. */
  ghost predicate SettlesAs(op: Operation, s: Surroundings, l: Ledger, switchedOff: seq<ModelId>, o: Outcome)
  {
    l.attempts != [] &&
    var last := Last(l.attempts);
    var id, model, reply, h := last.id, last.model, s.reply(last.id), History(op, s, l);
    match last.outcome
    case None => op.resumed && s.gate == Refuse(o)
    case Some(AttemptCompleted) => o == CompletionOutcome(op, s, id)
    case Some(AskedQuestions) => o == QuestionsOutcome(op, s, id, model)
    case Some(DeclaredFailure) =>
      reply.Framed? && reply.envelope.FailedEnvelope? &&
      o == Failure(DeclaredByProvider(reply.envelope.name), reply.envelope.retryable, model)
    case Some(MalformedResult) => o == MalformedEnding(op, s, l, id, model)
    case Some(ContractFailure) => o == AttachHistory(BrokenContract(id, model), h)
    case Some(CorrelationMismatch) =>
      o == if reply.Unsealable? then PlainlyMalformed(ResultCorrelationMismatch, model)
           else AttachHistory(Stamped(op, l, id, model, ResultCorrelationMismatch), h)
    case Some(Overflow) => o == PlainlyMalformed(ResultLimitExceeded, model)
    case Some(ProviderCancelled) =>
      o == if reply.Cancellation? then Failure(ProviderCancelledCode, true, model) else Cancelled(false)
    case Some(CallerCancelled) =>
      o == if reply.Cancellation? && s.prepare(id).Prepared? then Failure(CallerCancelledCode, true, model)
           else Cancelled(true)
    case Some(FailedAfterResponse) =>
      reply.TransportFailure? && o == AttachIfPrior(TransportEnding(reply, id, model), h)
    case Some(FailedBeforeResponse) =>
      reply.TransportFailure? && o == AttachIfPrior(TransportEnding(reply, id, model), h)
    case Some(UnavailableBeforeInvocation) => UnsentEnding(op, s, l, switchedOff, o)
    case Some(_) => false
  }

  /** Everything a round that returned promises about its log and its outcome. */
  ghost predicate Finished(op: Operation, s: Surroundings, l: Ledger, switchedOff: seq<ModelId>, o: Outcome)
  {
    WellLogged(l.attempts) && RankedWalk(l) && LogIsTrue(op, s, l) && PassesOver(op, l) &&
    CallsMatch(s, l, |l.calls|) && WithinBudget(op, l) && CandidateFirst(op, s, l) &&
    SettlesAs(op, s, l, switchedOff, o) && (op.resumed && l.calls != [] ==> s.gate.Proceed?)
  }
}
