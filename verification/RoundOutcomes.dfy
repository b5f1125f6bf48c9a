/** What comes back from a finished round, read off the reply to its last call, or off what kept the last attempt from
    being sent; written out in the fields of the row, the reply and the surroundings. */
module RoundOutcomes {
  import opened Wrappers
  import opened ProviderSelection
  import opened TaskOutcome
  import opened RoundParts
  import opened AttemptLog
  import opened AttemptBooks
  import opened RoundResults

  lemma LastIsTrueTo(op: Operation, s: Surroundings, l: Ledger)
    requires l.attempts != [] && LogIsTrue(op, s, l)
    ensures TrueTo(op, s, Count(l), Last(l.attempts))
  {
    assert Last(l.attempts) in l.attempts;
  }

  // ---------- replies without a result ----------

  /** A cancelled call is a failure that may be retried, an oversize result is malformed without a stamp, and what
      cannot be read back is the storage's fault, another operation's result or a lost spool. */
  lemma WithoutResult(op: Operation, s: Surroundings, l: Ledger, switchedOff: seq<ModelId>, o: Outcome, r: Reply)
    requires LogIsTrue(op, s, l) && l.attempts != [] && SettlesAs(op, s, l, switchedOff, o)
    requires
      var last := Last(l.attempts);
      last.invoked && last.outcome.Some? && s.prepare(last.id).Prepared? && s.reply(last.id) == r
    requires (r.Cancellation? || r.TooLarge? || r.Unsealable?)
    ensures
      var model := Last(l.attempts).model;
      match r
      case Cancellation(byCaller) =>
        o == Failed(if byCaller then CallerCancelledCode else ProviderCancelledCode, true, None, model, [])
      case TooLarge => o == Malformed(ResultLimitExceeded, None, model, None, None, [])
      case Unsealable(why) =>
        (why.SpoolStoreMissing? ==> o == Unavailable(WorkflowStorageUnavailable, None)) &&
        (why.ForeignSpool? ==> o == Malformed(ResultCorrelationMismatch, None, model, None, None, [])) &&
        (why.SpoolUnclaimable? ==> o == Failed(ResultSpoolFailed, false, None, None, []))
      case _ => true
  {
    LastIsTrueTo(op, s, l);
  }

  /** A failed transport keeps its fault class, may be retried exactly when no response had started, and names its
      attempt unless a response had started or the time ran out. */
  lemma AfterTransportFailure(op: Operation, s: Surroundings, l: Ledger, switchedOff: seq<ModelId>, o: Outcome,
                              r: Reply)
    requires LogIsTrue(op, s, l) && l.attempts != [] && SettlesAs(op, s, l, switchedOff, o)
    requires
      var last := Last(l.attempts);
      last.invoked && last.outcome.Some? && s.prepare(last.id).Prepared? && s.reply(last.id) == r
    requires r.TransportFailure?
    ensures o.Failed? && o.code == TransportFault(r.fault) && o.retryable == !r.responseStarted
    ensures o.model == Last(l.attempts).model
    ensures o.attemptId ==
      if r.responseStarted || r.fault.InvocationDeadlineExceeded? then None else Some(Last(l.attempts).id)
    ensures |op.prior| + |Entries(op.row, s, l.attempts)| <= 1 ==> o.prior == []
  {
    LastIsTrueTo(op, s, l);
    var last := Last(l.attempts);
    AttachKeepsReport(TransportEnding(r, last.id, last.model), History(op, s, l));
  }

  // ---------- replies that are no result frame ----------

  /** Another operation's frame, or no frame at all: malformed, naming its attempt; for text rows other than edit
      executions with the press's calls and the larger of three and the candidate count. */
  lemma AfterBrokenFrame(op: Operation, s: Surroundings, l: Ledger, switchedOff: seq<ModelId>, o: Outcome, r: Reply)
    requires LogIsTrue(op, s, l) && l.attempts != [] && SettlesAs(op, s, l, switchedOff, o)
    requires
      var last := Last(l.attempts);
      last.invoked && last.outcome.Some? && s.prepare(last.id).Prepared? && s.reply(last.id) == r
    requires r.Misframed? && (r.foreignCorrelation || !r.plainAnswer)
    ensures o.Malformed? && o.attemptId == Some(Last(l.attempts).id) && o.model == Last(l.attempts).model
    ensures o.code == if r.foreignCorrelation then ResultCorrelationMismatch else BrokenFrame
    ensures
      var spent := if op.seed.Some? then op.seed.value else 0;
      var count := SupportedCount(l.ranked);
      if op.row.textMode && !op.row.editExecution then
        o.used == Some(spent + |l.calls|) && o.budget == Some(if count > 3 then count else 3)
      else o.used.None? && o.budget.None?
  {
    var last, h := Last(l.attempts), History(op, s, l);
    var code := if r.foreignCorrelation then ResultCorrelationMismatch else BrokenFrame;
    assert o == AttachHistory(Stamped(op, l, last.id, last.model, code), h) by {
      LastIsTrueTo(op, s, l);
    }
    AttachKeepsReport(Stamped(op, l, last.id, last.model, code), h);
  }

  /** The replies whose malformed result carries no stamp: an oversize one, one that belongs to another operation's
      spool, and a readable result of a kind or type that the row did not ask for. */
  lemma UnstampableReplies(row: Row, r: Reply)
    ensures Unstampable(row, r) <==>
      match r
      case TooLarge => true
      case Unsealable(why) => why.ForeignSpool?
      case Misframed(foreign, plain) => plain && !foreign && KindCompleted !in row.permits
      case Framed(e) =>
        (match e
         case CompletedEnvelope(typeMatches, contractHolds) =>
           (KindCompleted !in row.permits || !typeMatches) && !(typeMatches && row.hasContentRule && !contractHolds)
         case QuestionsEnvelope => KindQuestions !in row.permits
         case CancelledEnvelope(_) => KindCancelled !in row.permits
         case FailedEnvelope(_, _) => KindFailed !in row.permits)
      case _ => false
  {
  }

  // ---------- results ----------

  /** Completed content of a type and kind that the row asked for, within its content rule, takes effect: unless the
      task is busy it is promoted. A text without any frame counts as such content. Of another kind or type it is
      malformed; a broken content rule is a failure that names its attempt. */
  lemma AfterCompletedContent(op: Operation, s: Surroundings, l: Ledger, switchedOff: seq<ModelId>, o: Outcome,
                              r: Reply, typeMatches: bool, contractHolds: bool)
    requires LogIsTrue(op, s, l) && l.attempts != [] && SettlesAs(op, s, l, switchedOff, o)
    requires
      var last := Last(l.attempts);
      last.invoked && last.outcome.Some? && s.prepare(last.id).Prepared? && s.reply(last.id) == r
    requires
      r == Framed(CompletedEnvelope(typeMatches, contractHolds)) ||
      (r == Misframed(false, true) && typeMatches && contractHolds)
    ensures
      var id, model := Last(l.attempts).id, Last(l.attempts).model;
      if typeMatches && op.row.hasContentRule && !contractHolds then
        o.Failed? && o.code == ContentContractFailed && !o.retryable && o.attemptId == Some(id) && o.model == model
      else if KindCompleted !in op.row.permits || !typeMatches then
        o == Malformed(ContentSchemaMismatch, None, model, None, None, [])
      else if op.row.needsLease && !s.leaseFree(id) then o == DuplicateRejected
      else if s.promotes(id) then o == Completed(id)
      else o == Failed(PromotionFailed, false, None, None, [])
  {
    LastIsTrueTo(op, s, l);
    var last := Last(l.attempts);
    AttachKeepsReport(BrokenContract(last.id, last.model), History(op, s, l));
  }

  /** Questions, a cancellation and a declared failure are what they say, where the row asked for them; questions only
      once their interaction is recorded, and never in a resumed run. */
  lemma AfterOtherResult(op: Operation, s: Surroundings, l: Ledger, switchedOff: seq<ModelId>, o: Outcome, e: Envelope)
    requires LogIsTrue(op, s, l) && l.attempts != [] && SettlesAs(op, s, l, switchedOff, o)
    requires
      var last := Last(l.attempts);
      last.invoked && last.outcome.Some? && s.prepare(last.id).Prepared? && s.reply(last.id) == Framed(e)
    requires !e.CompletedEnvelope?
    ensures
      var id, model := Last(l.attempts).id, Last(l.attempts).model;
      var malformed := Malformed(ContentSchemaMismatch, None, model, None, None, []);
      match e
      case QuestionsEnvelope =>
        if KindQuestions !in op.row.permits then o == malformed
        else if op.resumed then o == Failed(ResumedRunAskedAgain, true, None, model, [])
        else
          (s.posts(id).Lands? ==> o == Questions(id)) &&
          (s.posts(id).StorageDown? ==> o == Unavailable(WorkflowStorageUnavailable, None)) &&
          (s.posts(id).ContentRefused? ==> o == Failed(ChatTransactionNotRecorded, true, None, model, []))
      case CancelledEnvelope(byUser) => o == if KindCancelled in op.row.permits then Cancelled(byUser) else malformed
      case FailedEnvelope(name, retryable) =>
        o == if KindFailed in op.row.permits then Failed(DeclaredByProvider(name), retryable, None, model, [])
             else malformed
      case _ => true
  {
    LastIsTrueTo(op, s, l);
  }

  // ---------- without a call for the last attempt ----------

  /** An attempt that is left open was refused by the claim gate; one whose call was cancelled before it was sent, or
      that no candidate was reserved for, or whose candidate was refused, ends the round accordingly. */
  lemma WithoutCall(op: Operation, s: Surroundings, l: Ledger, switchedOff: seq<ModelId>, o: Outcome)
    requires LogIsTrue(op, s, l) && l.attempts != [] && SettlesAs(op, s, l, switchedOff, o)
    requires !(Last(l.attempts).invoked && s.prepare(Last(l.attempts).id).Prepared?) || Last(l.attempts).outcome.None?
    ensures
      var last := Last(l.attempts);
      var id := last.id;
      if last.outcome.None? then op.resumed && s.gate.Refuse? && o == s.gate.outcome
      else if last.invoked then o == Cancelled(true) && s.prepare(id).CancelledUnsent?
      else if last.model.None? && !s.attach(id) then o == Failed(AttemptIdentityAttachmentFailed, false, None, None, [])
      else if last.model.Some? && !s.assemble(id) then o == Failed(ToolSessionUnavailable, false, None, None, [])
      else if last.model.Some? then
        !op.resumed && KindQuestions in op.row.permits &&
        match s.admission(id)
        case StorageDown => o == Unavailable(WorkflowStorageUnavailable, None)
        case ContentRefused(sizeDriven) => o == Failed(ChatTransactionRejected, !sizeDriven, None, None, [])
        case Lands => o == Failed(ChatTransactionRejected, true, None, None, []) && !s.discards(id)
      else
        (SupportedCount(l.ranked) > 0 ==> l.cursor == |l.ranked|) &&
        (o.Unavailable? && o.chain.Some? <==>
         forall a :: a in l.attempts ==>
           a.outcome != Some(MalformedResultPreFallback) && a.outcome != Some(ContractFailurePreFallback))
  {
    LastIsTrueTo(op, s, l);
    LastRejectionIs(l.attempts);
    if LastRejected(op, l).Some? && History(op, s, l) != [] {
      RejectedIsReport(op, l);
      ReportOfRejection(LastRejected(op, l).value, History(op, s, l));
    }
  }

  lemma {:induction false} LatestRejectionIs(attempts: seq<Attempt>, i: nat)
    requires i < |attempts| && RejectedOnTheWay(attempts[i])
    requires forall j :: i < j < |attempts| ==> !RejectedOnTheWay(attempts[j])
    ensures LastRejection(attempts) == Some(attempts[i])
  {
    if i < |attempts| - 1 {
      LatestRejectionIs(attempts[..|attempts| - 1], i);
    }
  }

  /** With nothing left after a rejected result, a failure before any response that came later is reported in the place
      of a malformed one, and otherwise the result itself. */
  lemma AfterRejections(op: Operation, s: Surroundings, l: Ledger, switchedOff: seq<ModelId>, o: Outcome, i: nat)
    requires LogIsTrue(op, s, l) && SettlesAs(op, s, l, switchedOff, o) && i < |l.attempts|
    requires
      var last := Last(l.attempts);
      last.outcome == Some(UnavailableBeforeInvocation) && last.model.None? && s.attach(last.id)
    requires l.attempts[i].outcome in {Some(MalformedResultPreFallback), Some(ContractFailurePreFallback)}
    requires forall j :: i < j < |l.attempts| ==>
      l.attempts[j].outcome !in {Some(MalformedResultPreFallback), Some(ContractFailurePreFallback)}
    ensures
      var h, a := op.prior + Entries(op.row, s, l.attempts), l.attempts[i];
      h != [] &&
      var latest := Last(h);
      if a.outcome == Some(ContractFailurePreFallback) then
        o.Failed? && o.code == ContentContractFailed && !o.retryable && o.attemptId == Some(a.id) && o.model == a.model
      else if latest.skipOnRetry && latest.attemptId != a.id then
        o.Failed? && o.code == latest.code && o.retryable && o.attemptId == Some(latest.attemptId) &&
        o.model == latest.model
      else o.Malformed? && o.code == BrokenFrame && o.attemptId == Some(a.id) && o.model == a.model
  {
    LatestRejectionIs(l.attempts, i);
    var h, latest := History(op, s, l), Last(History(op, s, l));
    AttachKeepsReport(LastRejected(op, l).value, h);
    AttachKeepsReport(Failed(latest.code, true, Some(latest.attemptId), latest.model, []), h);
  }

  /** An exhausted chain says whether any of its candidates could serve the mode at all. */
  lemma ExhaustedFor(op: Operation, s: Surroundings, l: Ledger, switchedOff: seq<ModelId>, o: Outcome)
    requires l.attempts != [] && SettlesAs(op, s, l, switchedOff, o) && Last(l.attempts).outcome.Some?
    requires o.Unavailable? && o.chain.Some?
    ensures o.why.ProviderModeUnavailable? <==> forall c :: c in l.ranked ==> !c.supported
    ensures o.why.ProviderModeUnavailable? || o.why.CandidatesDeferred? || o.why.CandidatesExhausted?
  {
    ChainIsReported(op, s, l, switchedOff, o);
    if c :| c in l.ranked && c.supported {
      SupportedIsCounted(l.ranked, c);
    }
    if forall c :: c in l.ranked ==> !c.supported {
      NoneIsCounted(l.ranked);
    }
  }

  lemma {:induction false} NoneIsCounted(ranked: seq<Candidate>)
    requires forall c :: c in ranked ==> !c.supported
    ensures SupportedCount(ranked) == 0
  {
    if ranked != [] {
      assert Last(ranked) in ranked && forall c :: c in ranked[..|ranked| - 1] ==> c in ranked;
      NoneIsCounted(ranked[..|ranked| - 1]);
    }
  }

  // ---------- the budget ----------

  /** After the first call of an operation the press stays within the larger of three and the candidate count. */
  lemma CallsWithinBudget(op: Operation, s: Surroundings, l: Ledger, switchedOff: seq<ModelId>, o: Outcome)
    requires Finished(op, s, l, switchedOff, o) && |l.calls| > 1
    ensures
      var spent := if op.seed.Some? then op.seed.value else 0;
      var usable := |set c | c in l.ranked && c.supported :: c.model|;
      spent + |l.calls| <= if usable > 3 then usable else 3
  {
    SupportedAsSet(l.ranked);
  }

  lemma {:induction false} AllCounted(ranked: seq<Candidate>, n: nat, c: Candidate)
    requires n <= |ranked| && SupportedCount(ranked[..n]) == SupportedCount(ranked)
    requires c in ranked && c.supported
    ensures c in ranked[..n]
  {
    if n == |ranked| {
      assert ranked[..n] == ranked;
    } else {
      var front := ranked[..|ranked| - 1];
      assert front[..n] == ranked[..n] && ranked == front + [Last(ranked)];
      SupportedPrefix(front, n);
      AllCounted(front, n, c);
    }
  }

  /** An operation that starts a press ends on a failure before any response, or on a rejected result of a row whose
      results are retried, only when every candidate that can serve the mode was reserved. */
  lemma EveryCandidateFirst(op: Operation, s: Surroundings, l: Ledger, switchedOff: seq<ModelId>, o: Outcome, r: Reply,
                            c: Candidate)
    requires Finished(op, s, l, switchedOff, o) && op.seed.None? && op.prior == [] && c in l.ranked && c.supported
    requires
      var last := Last(l.attempts);
      last.invoked && last.outcome.Some? && s.prepare(last.id).Prepared? && s.reply(last.id) == r
    requires
      var content := r.Framed? && r.envelope.CompletedEnvelope? && r.envelope.typeMatches && op.row.hasContentRule &&
                     !r.envelope.contractHolds;
      (r.TransportFailure? && !r.responseStarted) ||
      ((content || (r.Misframed? && !r.foreignCorrelation && !r.plainAnswer)) &&
       op.row.textMode && !op.row.editExecution)
    ensures exists a :: a in l.attempts && a.model == Some(c.model)
  {
    LastIsTrueTo(op, s, l);
    var walked := l.ranked[..l.cursor];
    AllCounted(l.ranked, l.cursor, c);
    WalkCovers(walked, Trail(l.attempts), c);
    var x :| x in Trail(l.attempts) && x.1 == c.model;
    var a := TrailIsOfLog(l.attempts, x);
  }

  // ---------- the history ----------

  lemma {:induction false} RecordsOfAttempts(row: Row, s: Surroundings, attempts: seq<Attempt>, r: AttemptRecord)
    ensures r in Entries(row, s, attempts) <==> exists a :: a in attempts && r in EntryOf(row, s, a)
  {
    if attempts != [] {
      var front := attempts[..|attempts| - 1];
      assert attempts == front + [Last(attempts)];
      RecordsOfAttempts(row, s, front, r);
    }
  }

  /** What the history holds of a round: every attempt that could not be set up, every failed transport, every frame
      that was broken or another operation's, and every broken content rule, under its own code; and whether it failed
      before any response. Nothing else. */
  lemma HistoryHolds(op: Operation, s: Surroundings, l: Ledger, r: AttemptRecord)
    ensures r in Entries(op.row, s, l.attempts) <==>
      exists a :: a in l.attempts && a.claimed && a.outcome.Some? && a.id == r.attemptId && a.model == r.model &&
        if !a.invoked then r.code == SetupFailed && r.skipOnRetry
        else
          s.prepare(a.id).Prepared? &&
          match s.reply(a.id)
          case TransportFailure(fault, started, _, _) => r.code == TransportFault(fault) && r.skipOnRetry == !started
          case Misframed(foreign, plain) =>
            !r.skipOnRetry &&
            ((foreign && r.code == ResultCorrelationMismatch) || (!foreign && !plain && r.code == BrokenFrame))
          case Framed(e) =>
            !r.skipOnRetry && r.code == ContentContractFailed && e.CompletedEnvelope? && e.typeMatches &&
            op.row.hasContentRule && !e.contractHolds
          case _ => false
  {
    RecordsOfAttempts(op.row, s, l.attempts, r);
    forall a
      ensures r in EntryOf(op.row, s, a) <==>
        a.claimed && a.outcome.Some? && a.id == r.attemptId && a.model == r.model &&
        if !a.invoked then r.code == SetupFailed && r.skipOnRetry
        else
          s.prepare(a.id).Prepared? &&
          match s.reply(a.id)
          case TransportFailure(fault, started, _, _) => r.code == TransportFault(fault) && r.skipOnRetry == !started
          case Misframed(foreign, plain) =>
            !r.skipOnRetry &&
            ((foreign && r.code == ResultCorrelationMismatch) || (!foreign && !plain && r.code == BrokenFrame))
          case Framed(e) =>
            !r.skipOnRetry && r.code == ContentContractFailed && e.CompletedEnvelope? && e.typeMatches &&
            op.row.hasContentRule && !e.contractHolds
          case _ => false
    {
      RecordIsOf(op.row, s, a, r);
    }
  }

  lemma RecordIsOf(row: Row, s: Surroundings, a: Attempt, r: AttemptRecord)
    ensures r in EntryOf(row, s, a) <==>
      a.claimed && a.outcome.Some? && a.id == r.attemptId && a.model == r.model &&
      if !a.invoked then r.code == SetupFailed && r.skipOnRetry
      else
        s.prepare(a.id).Prepared? &&
        match s.reply(a.id)
        case TransportFailure(fault, started, _, _) => r.code == TransportFault(fault) && r.skipOnRetry == !started
        case Misframed(foreign, plain) =>
          !r.skipOnRetry &&
          ((foreign && r.code == ResultCorrelationMismatch) || (!foreign && !plain && r.code == BrokenFrame))
        case Framed(e) =>
          !r.skipOnRetry && r.code == ContentContractFailed && e.CompletedEnvelope? && e.typeMatches &&
          row.hasContentRule && !e.contractHolds
        case _ => false
  {
    var m := Remembered(row, s.reply(a.id));
    assert m.Some? && Reached(s, a) && a.claimed ==>
      EntryOf(row, s, a) == [AttemptRecord(a.id, m.value.0, a.model, m.value.1)];
  }
}
