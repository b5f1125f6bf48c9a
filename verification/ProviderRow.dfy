/** `runProviderRow` (src/actions/taskActionCoordinatorV1.ts): walk the ranked chain, one attempt at a time, until
    something ends the round. */
module ProviderRow {
  import opened Wrappers
  import opened ProviderSelection
  import opened TaskOutcome
  import opened RoundParts
  import opened ChainExhaustion
  import opened AttemptLog
  import opened AttemptBooks
  import opened RoundSteps
  import opened RoundEndings

  datatype Parts = Parts(
    session: Session,
    selection: Selection,
    record: InvocationRecord,
    broker: Broker,
    lease: LeasePhases,
    target: Target)

  ghost function View(p: Parts): Ledger
    reads p.session, p.selection, p.broker
  {
    Ledger(p.selection.ranked, p.selection.cursor, p.session.attempts, p.session.nextId, p.broker.calls)
  }

  ghost predicate Ready(p: Parts)
    reads p.session, p.selection, p.lease
  {
    p.session.Valid() && p.selection.Valid() && p.lease.Balanced() && !p.lease.held
  }

  /** Until the round ends its record is at most pending, and pending whenever an attempt is past admission. */
  predicate RecordOpen(op: Operation, state: RecordState, admitted: bool)
  {
    !op.resumed ==>
      (state.Absent? || (state.Pending? && KeepsRecord(op))) && (admitted && KeepsRecord(op) ==> state.Pending?)
  }

  // ---------- the four places a turn goes through ----------

  /** The head of the loop, the pending record aside. */
  ghost predicate Between(op: Operation, s: Surroundings, p: Parts, v: Round)
    reads p.session, p.selection, p.broker, p.lease
  {
    Ready(p) && Grounded(op, s, View(p), v, if v.carried.Some? then 1 else 0) &&
    (v.carried.None? ==> ReadyToAllocate(p.session.attempts) && LastIsPast(op, View(p))) &&
    (v.carried.Some? ==>
      InHand(p.session.attempts, v.carried.value.id, v.carried.value.model) &&
      (v.carried.value.assembled ==> s.assemble(v.carried.value.id)))
  }

  /** The head of the loop. */
  ghost predicate AtHead(op: Operation, s: Surroundings, p: Parts, v: Round)
    reads p.session, p.selection, p.broker, p.lease, p.record
  {
    Between(op, s, p, v) && RecordOpen(op, p.record.state, v.carried.Some?)
  }

  /** An attempt is reserved and in hand. */
  ghost predicate Holding(op: Operation, s: Surroundings, p: Parts, v: Round, id: AttemptId, model: ModelId)
    reads p.session, p.selection, p.broker, p.lease
  {
    Ready(p) && Grounded(op, s, View(p), v, 1) && v.carried.None? && InHand(p.session.attempts, id, model)
  }

  /** The attempt is claimed and prepared; nothing was sent yet. */
  ghost predicate Loaded(op: Operation, s: Surroundings, p: Parts, v: Round, id: AttemptId, model: ModelId)
    reads p.session, p.selection, p.broker, p.lease, p.record
  {
    Ready(p) && Grounded(op, s, View(p), v, 1) && RecordOpen(op, p.record.state, true) && v.carried.None? &&
    v.gateChecked && s.prepare(id).Prepared? &&
    p.session.attempts != [] && Last(p.session.attempts) == Attempt(id, Some(model), true, true, None)
  }

  /** The provider was called for this attempt and its reply is being dealt with. */
  ghost predicate InFlight(op: Operation, s: Surroundings, p: Parts, v: Round, id: AttemptId, model: ModelId)
    reads p.session, p.selection, p.broker, p.lease, p.record
  {
    Ready(p) && Flying(op, s, View(p), v, id, model) && RecordOpen(op, p.record.state, true)
  }

  // ---------- how a round ends ----------

  /** The outcomes with which the round's record is settled, too: cancellations, and a deadline before any response. */
  predicate SettlesRecord(o: Outcome)
  {
    o.Cancelled? ||
    (o.Failed? && o.retryable &&
     (o.code.CallerCancelledCode? || o.code.ProviderCancelledCode? ||
      o.code == TransportFault(InvocationDeadlineExceeded)))
  }

  /** Is the round's record settled with it, where the row keeps one: was the caller's cancellation noticed before the
      call, or the call cancelled, or did the time run out before any response? */
  predicate EndsRecord(row: Row, s: Surroundings, last: Attempt)
  {
    row.AsksQuestions() && last.invoked && last.outcome.Some? &&
    match s.prepare(last.id)
    case CancelledUnsent => true
    case SetupThrows => false
    case Prepared =>
      var r := s.reply(last.id);
      r.Cancellation? || (r.TransportFailure? && IsDeadline(r))
  }

  /** The pending record is posted exactly when the outcome is questions; a settle that was attempted leaves it
      settled or pending, never deleted; otherwise it is still there to be discarded, or was never admitted. */
  ghost predicate RecordKept(op: Operation, s: Surroundings, state: RecordState, last: Attempt, o: Outcome,
                             settleTried: bool)
  {
    (settleTried <==> EndsRecord(op.row, s, last)) &&
    (!op.resumed ==>
      (state.Posted? <==> o.Questions?) &&
      (state.Posted? || state.Pending? || state.Ended? ==> KeepsRecord(op)) &&
      (settleTried ==> state == if s.settles(last.id) then Ended(o.Failed? && o.code.TransportFault?) else Pending) &&
      (state.Ended? ==> settleTried)) &&
    (settleTried ==> SettlesRecord(o))
  }

  /** The caller's hook threw: the claimed attempt stays open, nothing was sent for it. */
  ghost predicate Interrupted(op: Operation, s: Surroundings, l: Ledger)
  {
    l.attempts != [] && !s.hook(Last(l.attempts).id) && Last(l.attempts).claimed && !Last(l.attempts).invoked &&
    Last(l.attempts).outcome.None? && WithinBudget(op, l) &&
    WellLogged(l.attempts) && LogIsTrue(op, s, l) && CallsMatch(s, l, |l.calls|)
  }

  ghost predicate RoundOver(op: Operation, s: Surroundings, p: Parts, exit: Exit, settleTried: bool)
    reads p.session, p.selection, p.broker, p.lease, p.record
  {
    Ready(p) && p.session.attempts != [] &&
    match exit
    case Threw => Interrupted(op, s, View(p)) && !settleTried && RecordOpen(op, p.record.state, true)
    case Returned(o) =>
      Finished(op, s, View(p), p.selection.switchedOff, o) &&
      (Last(p.session.attempts).outcome.Some? ==>
        RecordKept(op, s, p.record.state, Last(p.session.attempts), o, settleTried))
  }

  /** Over with the record left as it was, for the caller to discard. */
  lemma OverUnposted(op: Operation, s: Surroundings, p: Parts, o: Outcome)
    requires Ready(p) && Finished(op, s, View(p), p.selection.switchedOff, o) && RecordOpen(op, p.record.state, true)
    requires Last(p.session.attempts).outcome.Some? && !o.Questions?
    requires !EndsRecord(op.row, s, Last(p.session.attempts))
    ensures RoundOver(op, s, p, Returned(o), false)
  {
  }

  /** Over with the last attempt refused before it was sent. */
  ghost predicate OverUnsent(op: Operation, s: Surroundings, p: Parts, o: Outcome)
    reads p.session, p.selection, p.broker, p.lease
  {
    Ready(p) && p.session.attempts != [] && Last(p.session.attempts).outcome == Some(UnavailableBeforeInvocation) &&
    Finished(op, s, View(p), p.selection.switchedOff, o)
  }

  lemma UnsentIsOver(op: Operation, s: Surroundings, p: Parts, o: Outcome)
    requires OverUnsent(op, s, p, o) && RecordOpen(op, p.record.state, false)
    ensures RoundOver(op, s, p, Returned(o), false) && !o.Completed? && !o.Questions?
  {
    var l := View(p);
    assert Last(l.attempts) in l.attempts && TrueTo(op, s, Count(l), Last(l.attempts));
  }

  /** Nothing but this round's own completed attempt is ever reported after a promotion. */
  ghost predicate Unpromoted(p: Parts, exit: Exit)
    reads p.session
  {
    exit.Returned? && exit.outcome.Completed? ==> p.session.attempts != [] && Last(p.session.attempts).outcome.None?
  }

  /** A turn that did not end the round made progress: a candidate further, or a repeat used up, or the carried
      reservation used up. */
  predicate Advanced(cursor: nat, v: Round, cursor': nat, v': Round)
  {
    cursor' > cursor ||
    (cursor' == cursor && v'.networkRetries + v'.capacityRetries > v.networkRetries + v.capacityRetries) ||
    (cursor' == cursor && v'.networkRetries + v'.capacityRetries == v.networkRetries + v.capacityRetries &&
     v.carried.Some? && v'.carried.None?)
  }

  predicate SameRepeats(v: Round, v': Round)
  {
    v'.networkRetries == v.networkRetries && v'.capacityRetries == v.capacityRetries
  }

  // ---------- reserving ----------

  datatype Reserving =
    | GotHand(id: AttemptId, model: ModelId)
    | SkippedCandidate
    | StopReserving(outcome: Outcome)

  /** Nothing is left to reserve, and `o` is what the round's variables make of that. */
  ghost predicate Exhausted(op: Operation, s: Surroundings, p: Parts, v: Round, o: Outcome)
    reads p.session, p.selection, p.broker
  {
    NothingLeft(s, View(p)) &&
    if v.lastRejected.None? then ChainReport(View(p), p.selection.switchedOff, s.quota, o)
    else
      v.history != [] && (v.lastRejected.value.Malformed? || v.lastRejected.value.Failed?) &&
      o == RejectionReport(v.lastRejected.value, v.history)
  }

  /** The registry's evidence, with the attempts of the session folded in. */
  method ReportChain(s: Surroundings, p: Parts, retryIds: set<AttemptId>, candidatesExhausted: bool)
    returns (o: Outcome)
    requires candidatesExhausted <==> p.selection.CandidateCount() > 0
    requires retryIds == RepeatIds(Trail(p.session.attempts))
    ensures ChainReport(View(p), p.selection.switchedOff, s.quota, o)
  {
    var evidence := Evidence(p.selection.ranked, p.selection.cursor, p.selection.switchedOff);
    var chain := Enrich(evidence, p.session.attempts, retryIds, s.quota);
    var why :=
      if !candidatesExhausted then ProviderModeUnavailable
      else if AllInvokedDeferred(chain.candidates) then CandidatesDeferred
      else CandidatesExhausted;
    o := Unavailable(why, Some(chain));
  }

  /** What a round reports when nothing remains: an earlier rejected result, or the last failure after it, or the
      exhausted chain itself. */
  method ExhaustedOutcome(op: Operation, s: Surroundings, p: Parts, v: Round, candidatesExhausted: bool)
    returns (o: Outcome)
    requires Ready(p) && Grounded(op, s, View(p), v, 0)
    requires NothingLeft(s, View(p)) && (candidatesExhausted <==> p.selection.CandidateCount() > 0)
    ensures OverUnsent(op, s, p, o) && Exhausted(op, s, p, v, o)
  {
    ghost var l := View(p);
    if v.lastRejected.Some? {
      EndRejected(op, s, l, v, p.selection.switchedOff);
      var rejected, latest := v.lastRejected.value, Last(v.history);
      if latest.skipOnRetry && rejected.Malformed? && rejected.attemptId != Some(latest.attemptId) {
        var failure := Failed(latest.code, true, Some(latest.attemptId), latest.model, []);
        o := AttachHistory(failure, v.history);
      } else {
        o := AttachHistory(rejected, v.history);
      }
    } else {
      o := ReportChain(s, p, v.retryIds, candidatesExhausted);
      EndExhausted(op, s, l, v, p.selection.switchedOff, o);
    }
  }

  /** The three refusals of an attempt that was not claimed yet. */
  predicate Refusal(op: Operation, s: Surroundings, id: AttemptId, model: Option<ModelId>, o: Outcome)
  {
    (o == Failure(AttemptIdentityAttachmentFailed, false, None) && !s.attach(id) && model.None?) ||
    (o == Failure(ToolSessionUnavailable, false, None) && !s.assemble(id) && model.Some?) ||
    (o == AdmissionRefusal(s.admission(id)) && KeepsRecord(op) && model.Some? && s.assemble(id) &&
     !(s.admission(id).Lands? && s.discards(id)))
  }

  /** Settle an attempt that cannot be sent and end the round on `o`. */
  method RefuseAttempt(op: Operation, s: Surroundings, p: Parts, v: Round, reserved: nat, id: AttemptId, o: Outcome)
    requires Ready(p) && Grounded(op, s, View(p), v, reserved)
    requires p.session.attempts != [] && Last(p.session.attempts).id == id && Last(p.session.attempts).outcome.None?
    requires !Last(p.session.attempts).claimed && !Last(p.session.attempts).invoked
    requires Refusal(op, s, id, Last(p.session.attempts).model, o)
    modifies p.session
    ensures OverUnsent(op, s, p, o)
    ensures Last(p.session.attempts) == Last(old(p.session.attempts)).(outcome := Some(UnavailableBeforeInvocation))
  {
    ghost var l := View(p);
    p.session.ReportAttemptOutcome(id, UnavailableBeforeInvocation);
    LastIsTrue(op, s, l);
    SettleGrounded(op, s, l, View(p), v, reserved);
    EndUnsent(op, s, View(p), v, reserved, p.selection.switchedOff, o);
  }

  /** Allocate an attempt and let the caller attach its identity; when that fails closed the round is over. */
  method AllocateAttached(op: Operation, s: Surroundings, p: Parts, v: Round, reserved: nat)
    returns (id: AttemptId, failed: Option<Outcome>)
    requires Ready(p) && Grounded(op, s, View(p), v, reserved) && ReadyToAllocate(p.session.attempts)
    requires LastIsPast(op, View(p))
    modifies p.session
    ensures failed.Some? ==>
      OverUnsent(op, s, p, failed.value) && failed == Some(Failure(AttemptIdentityAttachmentFailed, false, None)) &&
      !s.attach(Last(p.session.attempts).id)
    ensures failed.None? ==>
      Ready(p) && Grounded(op, s, View(p), v, reserved) && s.attach(id) && p.session.adopted.None? &&
      p.session.attempts != [] && Last(p.session.attempts) == Attempt(id, None, false, false, None) &&
      Trail(p.session.attempts) == Trail(old(p.session.attempts))
  {
    ghost var l0 := View(p);
    id := p.session.AllocateAttempt();
    ghost var l1 := View(p);
    AllocateGrounded(op, s, l0, l1, v, reserved, id);
    if s.attach(id) {
      return id, None;
    }
    var o := Failure(AttemptIdentityAttachmentFailed, false, None);
    RefuseAttempt(op, s, p, v, reserved, id, o);
    failed := Some(o);
  }

  /** Nothing was reserved for this attempt: settle it, and report the chain. */
  method EndExhaustedChain(op: Operation, s: Surroundings, p: Parts, v: Round, id: AttemptId, candidatesExhausted: bool)
    returns (o: Outcome)
    requires Ready(p) && Grounded(op, s, View(p), v, 0) && s.attach(id)
    requires p.session.attempts != [] && Last(p.session.attempts) == Attempt(id, None, false, false, None)
    requires candidatesExhausted <==> p.selection.CandidateCount() > 0
    requires p.selection.CandidateCount() > 0 ==> p.selection.cursor == |p.selection.ranked|
    modifies p.session
    ensures OverUnsent(op, s, p, o)
  {
    ghost var l := View(p);
    p.session.ReportAttemptOutcome(id, UnavailableBeforeInvocation);
    SettleGrounded(op, s, l, View(p), v, 0);
    o := ExhaustedOutcome(op, s, p, v, candidatesExhausted);
  }

  lemma SkippedIsBetween(op: Operation, s: Surroundings, p: Parts, v: Round, l: Ledger)
    requires Ready(p) && Grounded(op, s, l, v, 0) && v.carried.None?
    requires l.cursor < |l.ranked| && !l.ranked[l.cursor].supported
    requires l.attempts != [] && Last(l.attempts) == Attempt(Last(l.attempts).id, None, false, false, None)
    requires LastBecomes(l.(cursor := l.cursor + 1), View(p),
                         Last(l.attempts).(outcome := Some(UnavailableBeforeInvocation)))
    ensures Between(op, s, p, v)
  {
    PassUnsupportedGrounded(op, s, l, View(p), v);
  }

  lemma ReservedIsHeld(op: Operation, s: Surroundings, p: Parts, v: Round, v': Round, l: Ledger, id: AttemptId)
    requires Ready(p) && Grounded(op, s, l, v, 0) && v.carried.None? && s.attach(id)
    requires l.cursor < |l.ranked| && l.ranked[l.cursor].supported
    requires l.attempts != [] && Last(l.attempts) == Attempt(id, None, false, false, None)
    requires LastBecomes(l.(cursor := l.cursor + 1), View(p),
                         Last(l.attempts).(model := Some(l.ranked[l.cursor].model)))
    requires v' == v.(networkRetries := 0, capacityRetries := 0, freshReserved := v.freshReserved + 1)
    ensures Holding(op, s, p, v', id, l.ranked[l.cursor].model)
  {
    ReserveGrounded(op, s, l, View(p), v, v');
  }

  method ReserveRankedNext(op: Operation, s: Surroundings, p: Parts, v: Round, id: AttemptId)
    returns (r: Reserving, v': Round)
    requires Ready(p) && Grounded(op, s, View(p), v, 0) && p.session.adopted.None? && v.carried.None?
    requires s.attach(id)
    requires p.session.attempts != [] && Last(p.session.attempts) == Attempt(id, None, false, false, None)
    modifies p.session, p.selection
    ensures r.GotHand? ==>
      Holding(op, s, p, v', r.id, r.model) &&
      v' == v.(networkRetries := 0, capacityRetries := 0, freshReserved := v.freshReserved + 1)
    ensures r.SkippedCandidate? ==> Between(op, s, p, v') && v' == v
    ensures !r.StopReserving? ==> p.selection.cursor == old(p.selection.cursor) + 1
    ensures r.StopReserving? ==> OverUnsent(op, s, p, r.outcome)
  {
    v' := v;
    ghost var l := View(p);
    var next := p.selection.ReserveNext(p.session, id);
    match next
    case NoneRemaining(candidatesExhausted) =>
      var o := EndExhaustedChain(op, s, p, v, id, candidatesExhausted);
      r := StopReserving(o);
    case CandidateUnavailable(_) =>
      SkippedIsBetween(op, s, p, v, l);
      r := SkippedCandidate;
    case Reserved(model) =>
      v' := v.(networkRetries := 0, capacityRetries := 0, freshReserved := v.freshReserved + 1);
      ReservedIsHeld(op, s, p, v, v', l, id);
      r := GotHand(id, model);
  }

  /** What a reservation leaves the turn with. */
  ghost predicate LeftWith(op: Operation, s: Surroundings, p: Parts, v: Round, r: Reserving)
    reads p.session, p.selection, p.broker, p.lease
  {
    match r
    case GotHand(id, model) => Holding(op, s, p, v, id, model)
    case SkippedCandidate => Between(op, s, p, v) && v.carried.None?
    case StopReserving(o) => OverUnsent(op, s, p, o)
  }

  method ReserveFresh(op: Operation, s: Surroundings, p: Parts, v: Round) returns (r: Reserving, v': Round)
    requires Between(op, s, p, v) && v.carried.None?
    modifies p.session, p.selection
    ensures LeftWith(op, s, p, v', r)
    ensures r.GotHand? ==>
      v' == v.(networkRetries := 0, capacityRetries := 0, freshReserved := v.freshReserved + 1)
    ensures r.SkippedCandidate? ==> v' == v
    ensures !r.StopReserving? ==> p.selection.cursor == old(p.selection.cursor) + 1
  {
    v' := v;
    var id, failed := AllocateAttached(op, s, p, v, 0);
    if failed.Some? {
      r := StopReserving(failed.value);
    } else {
      r, v' := ReserveRankedNext(op, s, p, v, id);
    }
  }

  // ---------- preparing ----------

  datatype Preparing =
    | ReadyToSend
    | PassedOver
    | StopPreparing(exit: Exit)

  /** A new record can take this one's place: there is none, or a pending one that can be discarded. */
  predicate Replaceable(state: RecordState, discards: bool) { state.Absent? || (state.Pending? && discards) }

  /** Replace whatever pending record an earlier candidate left by one for this attempt. */
  method OpenRecord(op: Operation, s: Surroundings, p: Parts, id: AttemptId) returns (refused: Option<Outcome>)
    requires KeepsRecord(op)
    modifies p.record
    ensures if refused.None? then p.record.state.Pending? else p.record.state in {Absent, old(p.record.state)}
    ensures refused.Some? ==> refused.value == AdmissionRefusal(s.admission(id))
    ensures refused.None? <==> s.admission(id).Lands? && Replaceable(old(p.record.state), s.discards(id))
  {
    p.record.Discard(s.discards(id));
    var fate := p.record.Admit(s.admission(id));
    refused := if fate.Lands? then None else Some(AdmissionRefusal(fate));
  }

  /** Try to settle the operation's record terminally; only question-capable rows have one. */
  method SettleRecord(op: Operation, s: Surroundings, p: Parts, id: AttemptId, timedOut: bool) returns (tried: bool)
    requires RecordOpen(op, p.record.state, true)
    modifies p.record
    ensures tried == op.row.AsksQuestions()
    ensures !op.resumed ==>
      p.record.state == if !tried then Absent else if s.settles(id) then Ended(timedOut) else Pending
  {
    tried := op.row.AsksQuestions();
    if tried {
      p.record.Settle(s.settles(id), timedOut);
    }
  }

  /** The claim-free setup and the once-per-drive invocation gate. */
  method ClaimAndPrepare(op: Operation, s: Surroundings, p: Parts, v: Round, id: AttemptId, model: ModelId)
    returns (r: Preparing, v': Round, settleTried: bool)
    requires Holding(op, s, p, v, id, model) && RecordOpen(op, p.record.state, true)
    requires model !in Passed(op, View(p)) && s.assemble(id)
    modifies p.session, p.record
    ensures r.ReadyToSend? ==> Loaded(op, s, p, v', id, model)
    ensures r.PassedOver? ==> AtHead(op, s, p, v')
    ensures !r.StopPreparing? ==> SameRepeats(v, v') && v'.carried.None? && !settleTried
    ensures r.StopPreparing? ==> RoundOver(op, s, p, r.exit, settleTried) && Unpromoted(p, r.exit)
    ensures p.session.attempts != [] && Last(p.session.attempts).id == id && Last(p.session.attempts).claimed
  {
    v', settleTried := v, false;
    ghost var l := View(p);
    p.session.Claim(id);
    PrepareGrounded(op, s, l, View(p), v);
    if !s.hook(id) {
      RoomIsWithinBudget(op, s, View(p), v, 1);
      return StopPreparing(Threw), v', settleTried;
    }
    match s.prepare(id)
    case SetupThrows =>
      v' := PassOverSetup(op, s, p, v, id, model);
      r := PassedOver;
    case CancelledUnsent =>
      settleTried := CancelUnsent(op, s, p, v, id, model);
      r := StopPreparing(Returned(Cancelled(true)));
    case Prepared =>
      r, v' := PassGate(op, s, p, v, id, model);
  }

  /** A provider that cannot even be set up is one more failure of the round, and the next candidate's turn. */
  method PassOverSetup(op: Operation, s: Surroundings, p: Parts, v: Round, id: AttemptId, model: ModelId)
    returns (v': Round)
    requires Ready(p) && Grounded(op, s, View(p), v, 1) && RecordOpen(op, p.record.state, true) && v.carried.None?
    requires p.session.attempts != [] && Last(p.session.attempts) == Attempt(id, Some(model), true, false, None)
    requires s.prepare(id).SetupThrows?
    modifies p.session
    ensures AtHead(op, s, p, v') && v'.carried.None? && SameRepeats(v, v')
    ensures p.session.attempts != [] && Last(p.session.attempts).id == id && Last(p.session.attempts).claimed
  {
    ghost var l := View(p);
    v' := v.(history := v.history + [AttemptRecord(id, SetupFailed, Some(model), true)]);
    p.session.ReportAttemptOutcome(id, UnavailableBeforeInvocation);
    SkipGrounded(op, s, l, View(p), v, id, model);
  }

  method CancelUnsent(op: Operation, s: Surroundings, p: Parts, v: Round, id: AttemptId, model: ModelId)
    returns (settleTried: bool)
    requires Ready(p) && Grounded(op, s, View(p), v, 1) && RecordOpen(op, p.record.state, true)
    requires p.session.attempts != [] && Last(p.session.attempts) == Attempt(id, Some(model), true, false, None)
    requires model !in Passed(op, View(p)) && s.prepare(id).CancelledUnsent? && s.hook(id)
    modifies p.session, p.record
    ensures RoundOver(op, s, p, Returned(Cancelled(true)), settleTried)
    ensures p.session.attempts != [] && Last(p.session.attempts).id == id && Last(p.session.attempts).claimed
  {
    ghost var l := View(p);
    p.session.BeginInvocation(id);
    p.session.ReportAttemptOutcome(id, CallerCancelled);
    settleTried := SettleRecord(op, s, p, id, false);
    EndCancelled(op, s, l, View(p), v, p.selection.switchedOff);
  }

  method PassGate(op: Operation, s: Surroundings, p: Parts, v: Round, id: AttemptId, model: ModelId)
    returns (r: Preparing, v': Round)
    requires Ready(p) && Grounded(op, s, View(p), v, 1) && RecordOpen(op, p.record.state, true) && v.carried.None?
    requires p.session.attempts != [] && Last(p.session.attempts) == Attempt(id, Some(model), true, false, None)
    requires model !in Passed(op, View(p)) && s.prepare(id).Prepared? && s.hook(id) && s.assemble(id)
    modifies p.session
    ensures r.ReadyToSend? ==> Loaded(op, s, p, v', id, model) && SameRepeats(v, v')
    ensures r.StopPreparing? ==> RoundOver(op, s, p, r.exit, false) && Unpromoted(p, r.exit)
    ensures !r.PassedOver?
    ensures p.session.attempts != [] && Last(p.session.attempts).id == id && Last(p.session.attempts).claimed
  {
    ghost var l := View(p);
    p.session.BeginInvocation(id);
    PrepareGrounded(op, s, l, View(p), v);
    v' := v;
    if !v.gateChecked {
      v' := v.(gateChecked := true);
      if s.gate.Refuse? {
        EndUnsent(op, s, View(p), v, 1, p.selection.switchedOff, s.gate.outcome);
        return StopPreparing(Returned(s.gate.outcome)), v';
      }
      GateGrounded(op, s, View(p), v);
    }
    r := ReadyToSend;
  }

  /** A candidate that an earlier operation of the press already tried: its reservation is settled unused. */
  method PassOverTried(op: Operation, s: Surroundings, p: Parts, v: Round, id: AttemptId, model: ModelId)
    requires Holding(op, s, p, v, id, model) && model in Passed(op, View(p))
    modifies p.session
    ensures Between(op, s, p, v) && Grounded(op, s, View(p), v, 0)
  {
    ghost var l := View(p);
    p.session.ReportAttemptOutcome(id, UnavailableBeforeInvocation);
    SettleGrounded(op, s, l, View(p), v, 1);
  }

  /** `reserved`: this turn reserved the candidate itself; `assembled`: admission assembled its prompt already. */
  method PrepareAttempt(op: Operation, s: Surroundings, p: Parts, v: Round, id: AttemptId, model: ModelId,
                        reserved: bool, assembled: bool)
    returns (r: Preparing, v': Round, settleTried: bool)
    requires Holding(op, s, p, v, id, model) && RecordOpen(op, p.record.state, !reserved)
    requires assembled ==> s.assemble(id)
    modifies p.session, p.record
    ensures r.ReadyToSend? ==> Loaded(op, s, p, v', id, model)
    ensures r.PassedOver? ==> AtHead(op, s, p, v')
    ensures !r.StopPreparing? ==> SameRepeats(v, v') && v'.carried.None? && !settleTried
    ensures r.StopPreparing? ==> RoundOver(op, s, p, r.exit, settleTried) && Unpromoted(p, r.exit)
    // a carried reservation is not refused again for its record
    ensures !reserved && s.assemble(id) && model !in Passed(op, View(p)) ==>
      p.session.attempts != [] && Last(p.session.attempts).id == id && Last(p.session.attempts).claimed
  {
    v', settleTried := v, false;
    if model in SkipOnRetry(op.prior, p.selection.CandidateCount()) {
      PassOverTried(op, s, p, v, id, model);
      return PassedOver, v', settleTried;
    }
    if !assembled && !s.assemble(id) {
      var o := Failure(ToolSessionUnavailable, false, None);
      RefuseAttempt(op, s, p, v, 1, id, o);
      UnsentIsOver(op, s, p, o);
      return StopPreparing(Returned(o)), v', settleTried;
    }
    if reserved && KeepsRecord(op) {
      var refused := OpenRecord(op, s, p, id);
      if refused.Some? {
        RefuseAttempt(op, s, p, v, 1, id, refused.value);
        UnsentIsOver(op, s, p, refused.value);
        return StopPreparing(Returned(refused.value)), v', settleTried;
      }
    }
    r, v', settleTried := ClaimAndPrepare(op, s, p, v, id, model);
  }

  /** Settle the attempt that was sent as its reply says. */
  method ReportSent(op: Operation, s: Surroundings, p: Parts, v: Round, id: AttemptId, model: ModelId,
                    a: AttemptOutcome,
                    ghost l: Ledger)
    requires InFlight(op, s, p, v, id, model) && RecordedAs(op.row, s.reply(id), a) && l == View(p)
    modifies p.session
    ensures Ready(p) && LandsAs(op, s, l, View(p), id, a)
    ensures p.session.attempts != [] && Last(p.session.attempts) == Attempt(id, Some(model), true, true, Some(a))
  {
    p.session.ReportAttemptOutcome(id, a);
  }

  // ---------- a transport failure ----------

  datatype Turn = Onward | Stop(exit: Exit)

  lemma EndFailedSent(op: Operation, s: Surroundings, l: Ledger, l': Ledger, v: Round, id: AttemptId, model: ModelId,
                      switchedOff: seq<ModelId>, a: AttemptOutcome, o: Outcome)
    requires Flying(op, s, l, v, id, model) && LandsAs(op, s, l, l', id, a) && s.reply(id).TransportFailure?
    requires a.FailedAfterResponse? || (a.FailedBeforeResponse? && !UntriedAhead(v, Count(l)))
    requires
      var failure := s.reply(id);
      var r := AttemptRecord(id, TransportFault(failure.fault), Some(model), !failure.responseStarted);
      o == AttachIfPrior(TransportEnding(failure, id, Some(model)), v.history + [r])
    ensures Finished(op, s, l', switchedOff, o)
  {
    if a.FailedBeforeResponse? {
      LastChance(op, s, l, l', v, id, model, a);
    }
    var failure := s.reply(id);
    LandedHistory(op, s, l, l', v, id, model, a,
                  AttemptRecord(id, TransportFault(failure.fault), Some(model), !failure.responseStarted));
    EndSent(op, s, l, l', v, id, model, switchedOff, a, o);
  }

  /** Settle the attempt that was sent; the round ends on its failure. */
  method EndFailed(op: Operation, s: Surroundings, p: Parts, v: Round, id: AttemptId, model: ModelId, failure: Reply,
                   o: Outcome)
    requires InFlight(op, s, p, v, id, model) && failure == s.reply(id) && failure.TransportFailure?
    requires EndsRound(v, failure, p.selection.CandidateCount())
    requires
      var r := AttemptRecord(id, TransportFault(failure.fault), Some(model), !failure.responseStarted);
      o == AttachIfPrior(TransportEnding(failure, id, Some(model)), v.history + [r])
    modifies p.session
    ensures Ready(p) && p.session.attempts != [] && Finished(op, s, View(p), p.selection.switchedOff, o)
    ensures
      var a := if failure.responseStarted then FailedAfterResponse else FailedBeforeResponse;
      Last(p.session.attempts) == Attempt(id, Some(model), true, true, Some(a))
  {
    ghost var l := View(p);
    var a := if failure.responseStarted then FailedAfterResponse else FailedBeforeResponse;
    ReportSent(op, s, p, v, id, model, a, l);
    EndFailedSent(op, s, l, View(p), v, id, model, p.selection.switchedOff, a, o);
  }

  /** A failure keeps its code and whether it is retryable, with history or without. */
  lemma AttachedFailure(o: Outcome, h: seq<AttemptRecord>)
    requires o.Failed?
    ensures
      var p := AttachIfPrior(o, h);
      p.Failed? && p.code == o.code && p.retryable == o.retryable
  {
  }

  /** The round's record is settled, too, where there is one. */
  method CloseRecord(op: Operation, s: Surroundings, p: Parts, id: AttemptId, o: Outcome, timedOut: bool)
    returns (settleTried: bool)
    requires Ready(p) && p.session.attempts != [] && Finished(op, s, View(p), p.selection.switchedOff, o)
    requires Last(p.session.attempts).id == id && Last(p.session.attempts).outcome.Some?
    requires RecordOpen(op, p.record.state, true) && SettlesRecord(o)
    requires EndsRecord(op.row, s, Last(p.session.attempts)) <==> op.row.AsksQuestions()
    requires timedOut <==> o.Failed? && o.code.TransportFault?
    modifies p.record
    ensures RoundOver(op, s, p, Returned(o), settleTried) && settleTried == op.row.AsksQuestions()
  {
    settleTried := SettleRecord(op, s, p, id, timedOut);
    if !settleTried {
      OverUnposted(op, s, p, o);
    }
  }

  /** The round is over; a deadline settles the operation's record as timed out. */
  method SettleFailed(op: Operation, s: Surroundings, p: Parts, id: AttemptId, failure: Reply, o: Outcome)
    returns (settleTried: bool)
    requires Ready(p) && p.session.attempts != [] && Finished(op, s, View(p), p.selection.switchedOff, o)
    requires Last(p.session.attempts).id == id && Last(p.session.attempts).outcome.Some?
    requires RecordOpen(op, p.record.state, true) && failure.TransportFailure?
    requires o.Failed? && o.code == TransportFault(failure.fault) && o.retryable == !failure.responseStarted
    requires Last(p.session.attempts).invoked && s.prepare(id).Prepared? && failure == s.reply(id)
    modifies p.record
    ensures RoundOver(op, s, p, Returned(o), settleTried)
    ensures settleTried <==> IsDeadline(failure) && op.row.AsksQuestions()
  {
    if IsDeadline(failure) {
      settleTried := CloseRecord(op, s, p, id, o, true);
    } else {
      settleTried := false;
      OverUnposted(op, s, p, o);
    }
  }

  /** Out of time before any response. */
  predicate IsDeadline(failure: Reply)
    requires failure.TransportFailure?
  {
    failure.fault.InvocationDeadlineExceeded? && !failure.responseStarted
  }

  /** Reserve the same candidate once more. */
  method RepeatCandidate(op: Operation, s: Surroundings, p: Parts, v: Round, model: ModelId, capacity: bool)
    returns (t: Turn, v': Round)
    requires Ready(p) && Grounded(op, s, View(p), v, 1) && RecordOpen(op, p.record.state, true) && v.carried.None?
    requires ReadyToAllocate(p.session.attempts) && LastIsPast(op, View(p))
    requires p.session.attempts != [] && Last(p.session.attempts).model == Some(model)
    requires if capacity then v.capacityRetries < MAX_CAPACITY_RETRIES else v.networkRetries < MAX_NETWORK_RETRIES
    modifies p.session
    ensures t.Stop? ==>
      RoundOver(op, s, p, t.exit, false) && t.exit == Returned(Failure(AttemptIdentityAttachmentFailed, false, None)) &&
      !s.attach(Last(p.session.attempts).id)
    ensures t.Onward? ==> AtHead(op, s, p, v') && exists id :: v' == Repeated(v, id, model, capacity)
  {
    v' := v;
    var id, failed := AllocateAttached(op, s, p, v, 1);
    if failed.Some? {
      UnsentIsOver(op, s, p, failed.value);
      return Stop(Returned(failed.value)), v';
    }
    v' := ReserveAgain(op, s, p, v, id, model, capacity);
    t := Onward;
  }

  method ReserveAgain(op: Operation, s: Surroundings, p: Parts, v: Round, id: AttemptId, model: ModelId, capacity: bool)
    returns (v': Round)
    requires Ready(p) && Grounded(op, s, View(p), v, 1) && RecordOpen(op, p.record.state, true)
    requires p.session.attempts != [] && Last(p.session.attempts) == Attempt(id, None, false, false, None)
    requires Trail(p.session.attempts) != [] && Last(Trail(p.session.attempts)).1 == model && s.attach(id)
    requires if capacity then v.capacityRetries < MAX_CAPACITY_RETRIES else v.networkRetries < MAX_NETWORK_RETRIES
    modifies p.session
    ensures AtHead(op, s, p, v') && v' == Repeated(v, id, model, capacity)
  {
    ghost var l := View(p);
    v' := Repeated(v, id, model, capacity);
    p.session.Reserve(id, model);
    RepeatGrounded(op, s, l, View(p), v, v', id);
  }

  /** A repeat for lack of capacity counts as one even when the failure was a network fault, too. */
  function Repeated(v: Round, id: AttemptId, model: ModelId, capacity: bool): Round
  {
    var w := v.(retryIds := v.retryIds + {id}, carried := Some(Carried(id, model, false)));
    if capacity then w.(capacityRetries := v.capacityRetries + 1) else w.(networkRetries := v.networkRetries + 1)
  }

  /** A failure that does not end the round: the same candidate again where that is earned, or the next one. */
  method FallBack(op: Operation, s: Surroundings, p: Parts, v: Round, id: AttemptId, model: ModelId, failure: Reply)
    returns (t: Turn, v': Round)
    requires InFlight(op, s, p, v, id, model) && failure == s.reply(id)
    requires failure.TransportFailure? && !failure.responseStarted
    requires v.invocations < Budget(p.selection.CandidateCount())
    modifies p.session
    ensures t.Stop? ==>
      RoundOver(op, s, p, t.exit, false) && t.exit == Returned(Failure(AttemptIdentityAttachmentFailed, false, None)) &&
      Repeats(v, failure, p.selection.CandidateCount()) && !s.attach(Last(p.session.attempts).id)
    ensures t.Onward? ==>
      AtHead(op, s, p, v') && (v'.carried.Some? <==> Repeats(v, failure, p.selection.CandidateCount())) &&
      v'.history == v.history + [AttemptRecord(id, TransportFault(failure.fault), Some(model), true)]
    ensures t.Onward? && v'.carried.None? ==> SameRepeats(v, v')
    ensures t.Onward? && v'.carried.Some? ==>
      v'.carried.value.model == model &&
      if failure.providerCapacity && v.capacityRetries < 2 then
        v'.capacityRetries == v.capacityRetries + 1 && v'.networkRetries == v.networkRetries
      else v'.networkRetries == v.networkRetries + 1 && v'.capacityRetries == v.capacityRetries
  {
    ghost var l := View(p);
    ReportSent(op, s, p, v, id, model, FailedBeforeResponse, l);
    v' := v.(history := v.history + [AttemptRecord(id, TransportFault(failure.fault), Some(model), true)]);
    if Repeats(v, failure, p.selection.CandidateCount()) {
      SkippedGrounded(op, s, l, View(p), v, id, model, failure.fault, 1);
      var capacity := failure.providerCapacity && v.capacityRetries < MAX_CAPACITY_RETRIES;
      t, v' := RepeatCandidate(op, s, p, v', model, capacity);
    } else {
      SkippedGrounded(op, s, l, View(p), v, id, model, failure.fault, 0);
      t := Onward;
    }
  }

  /** A deadline is never repeated. */
  predicate Repeats(v: Round, failure: Reply, candidateCount: nat)
    requires failure.TransportFailure?
  {
    !failure.fault.InvocationDeadlineExceeded? &&
    Repeatable(v, failure.networkFault, failure.providerCapacity, candidateCount)
  }

  /** Does a failed transport end the round: because a response had started, or because the time or the budget is
      spent with nothing left to try? */
  predicate EndsRound(v: Round, failure: Reply, candidateCount: nat)
    requires failure.TransportFailure?
  {
    failure.responseStarted ||
    (failure.fault.InvocationDeadlineExceeded? && !UntriedAhead(v, candidateCount)) ||
    (!failure.fault.InvocationDeadlineExceeded? && !Repeats(v, failure, candidateCount) &&
     v.invocations >= Budget(candidateCount))
  }

  /** When a failed transport is repeated and when it ends the round. A dropped connection is repeated once and a
      provider out of capacity twice, while the budget, the larger of three and the number of candidates, leaves a
      first attempt for each one not yet reserved. The round ends once a response had started, or when the time is up
      and nothing is left to try, or when the budget is spent. */
  lemma TransportRule(v: Round, failure: Reply, count: nat)
    requires failure.TransportFailure?
    ensures
      var budget := if count > 3 then count else 3;
      var deadline := failure.fault.InvocationDeadlineExceeded?;
      var unreserved := if count > v.freshReserved then count - v.freshReserved else 0;
      var repeats :=
        !deadline && v.invocations + 1 + unreserved <= budget &&
        ((failure.networkFault && v.networkRetries < 1) || (failure.providerCapacity && v.capacityRetries < 2));
      var ends :=
        failure.responseStarted || (deadline && !(unreserved > 0 && v.invocations < budget)) ||
        (!deadline && !repeats && v.invocations >= budget);
      (Repeats(v, failure, count) <==> repeats) && (EndsRound(v, failure, count) <==> ends)
  {
    ArmedBudgetIsRedundant(v, count);
  }

  method HandleTransport(op: Operation, s: Surroundings, p: Parts, v: Round, id: AttemptId, model: ModelId,
                         failure: Reply)
    returns (t: Turn, v': Round, settleTried: bool)
    requires InFlight(op, s, p, v, id, model) && failure == s.reply(id) && failure.TransportFailure?
    modifies p.session, p.record
    ensures t.Stop? ==> RoundOver(op, s, p, t.exit, settleTried) && t.exit.Returned? && Unpromoted(p, t.exit)
    ensures
      var count := p.selection.CandidateCount();
      var h := v.history + [AttemptRecord(id, TransportFault(failure.fault), Some(model), !failure.responseStarted)];
      if EndsRound(v, failure, count) then
        t == Stop(Returned(AttachIfPrior(TransportEnding(failure, id, Some(model)), h))) &&
        settleTried == (IsDeadline(failure) && op.row.AsksQuestions())
      else
        !settleTried &&
        if t.Stop? then
          t.exit == Returned(Failure(AttemptIdentityAttachmentFailed, false, None)) &&
          Repeats(v, failure, count) && !s.attach(Last(p.session.attempts).id)
        else v'.history == h && (v'.carried.Some? <==> Repeats(v, failure, count))
    ensures t.Onward? ==> AtHead(op, s, p, v')
    ensures t.Onward? && v'.carried.None? ==> SameRepeats(v, v')
    ensures t.Onward? && v'.carried.Some? ==>
      v'.carried.value.model == model &&
      if failure.providerCapacity && v.capacityRetries < 2 then
        v'.capacityRetries == v.capacityRetries + 1 && v'.networkRetries == v.networkRetries
      else v'.networkRetries == v.networkRetries + 1 && v'.capacityRetries == v.capacityRetries
  {
    settleTried, v' := false, v;
    if !EndsRound(v, failure, p.selection.CandidateCount()) {
      t, v' := FallBack(op, s, p, v, id, model, failure);
    } else {
      var h := v.history + [AttemptRecord(id, TransportFault(failure.fault), Some(model), !failure.responseStarted)];
      var o := AttachIfPrior(TransportEnding(failure, id, Some(model)), h);
      EndFailed(op, s, p, v, id, model, failure, o);
      AttachedFailure(TransportEnding(failure, id, Some(model)), h);
      settleTried := SettleFailed(op, s, p, id, failure, o);
      t := Stop(Returned(o));
    }
  }

  // ---------- a response ----------

  /** Endings that carry no history: neither a stamp nor, when malformed, the attempt's own identity. */
  predicate PlainEnding(row: Row, s: Surroundings, id: AttemptId, model: ModelId, a: AttemptOutcome, o: Outcome)
  {
    var reply := s.reply(id);
    match a
    case MalformedResult =>
      (reply == Unsealable(SpoolStoreMissing) && o == Unavailable(WorkflowStorageUnavailable, None)) ||
      (reply == Unsealable(SpoolUnclaimable) && o == Failure(ResultSpoolFailed, false, None)) ||
      (Unusable(row, reply) && o == PlainlyMalformed(ContentSchemaMismatch, Some(model)))
    case CorrelationMismatch => o == PlainlyMalformed(ResultCorrelationMismatch, Some(model)) && reply.Unsealable?
    case Overflow => o == PlainlyMalformed(ResultLimitExceeded, Some(model))
    case DeclaredFailure =>
      reply.Framed? && reply.envelope.FailedEnvelope? &&
      o == Failure(DeclaredByProvider(reply.envelope.name), reply.envelope.retryable, Some(model))
    case ProviderCancelled => o == Cancelled(false) && !reply.Cancellation?
    case CallerCancelled => o == Cancelled(true) && !reply.Cancellation?
    case _ => false
  }

  lemma PlainSettles(op: Operation, s: Surroundings, l: Ledger, switchedOff: seq<ModelId>, id: AttemptId,
                     model: ModelId,
                     a: AttemptOutcome, o: Outcome)
    requires l.attempts != [] && Last(l.attempts) == Attempt(id, Some(model), true, true, Some(a))
    requires PlainEnding(op.row, s, id, model, a, o)
    requires l.cursor <= |l.ranked|
    ensures SettlesAs(op, s, l, switchedOff, o) && CandidateFirst(op, s, l) && !o.Questions?
  {
  }

  /** Settle the attempt that was sent on such an ending. */
  method EndPlainly(op: Operation, s: Surroundings, p: Parts, v: Round, id: AttemptId, model: ModelId,
                    a: AttemptOutcome, o: Outcome)
    requires InFlight(op, s, p, v, id, model)
    requires PlainEnding(op.row, s, id, model, a, o) && RecordedAs(op.row, s.reply(id), a)
    modifies p.session
    ensures RoundOver(op, s, p, Returned(o), false)
    ensures Last(p.session.attempts) == Attempt(id, Some(model), true, true, Some(a))
  {
    ghost var l := View(p);
    ReportSent(op, s, p, v, id, model, a, l);
    PlainSettles(op, s, View(p), p.selection.switchedOff, id, model, a, o);
    EndSent(op, s, l, View(p), v, id, model, p.selection.switchedOff, a, o);
    OverUnposted(op, s, p, o);
  }

  /** The settlement lease phase: promotion is the one change to the workflow task, and happens at most once. */
  method PromoteCompleted(op: Operation, s: Surroundings, p: Parts, id: AttemptId) returns (o: Outcome)
    requires p.lease.Balanced() && !p.lease.held
    modifies p.lease, p.target
    ensures p.lease.Balanced() && !p.lease.held
    ensures o == CompletionOutcome(op, s, id)
    ensures p.target.promoted == old(p.target.promoted) + (if o.Completed? then [id] else [])
  {
    if op.row.needsLease {
      var acquired := p.lease.Acquire(s.leaseFree(id));
      if !acquired {
        return DuplicateRejected;
      }
    }
    var promoted := p.target.Promote(id, p.lease, op.row.needsLease, s.promotes(id));
    o := if promoted then Completed(id) else Failure(PromotionFailed, false, None);
    if op.row.needsLease {
      p.lease.Release();
    }
  }

  /** The workflow task changed exactly when this round's own attempt completed. */
  ghost predicate PromotedOnly(before: seq<AttemptId>, after: seq<AttemptId>, last: Attempt, o: Outcome)
  {
    after == before + (if last.outcome == Some(AttemptCompleted) && o.Completed? then [last.id] else [])
  }

  method AskQuestions(op: Operation, s: Surroundings, p: Parts, v: Round, id: AttemptId, model: ModelId)
    returns (o: Outcome)
    requires InFlight(op, s, p, v, id, model) && Answers(op.row, s.reply(id), QuestionsEnvelope)
    modifies p.session, p.record
    ensures RoundOver(op, s, p, Returned(o), false)
    ensures Last(p.session.attempts) == Attempt(id, Some(model), true, true, Some(AskedQuestions))
    ensures o == QuestionsOutcome(op, s, id, Some(model))
  {
    ghost var l := View(p);
    p.session.ReportAttemptOutcome(id, AskedQuestions);
    if op.resumed {
      o := Failure(ResumedRunAskedAgain, true, Some(model));
    } else {
      var fate := p.record.Post(s.posts(id));
      o := match fate
           case Lands => Questions(id)
           case StorageDown => Unavailable(WorkflowStorageUnavailable, None)
           case ContentRefused(_) => Failure(ChatTransactionNotRecorded, true, Some(model));
    }
    EndSent(op, s, l, View(p), v, id, model, p.selection.switchedOff, AskedQuestions, o);
  }

  method CompleteEnvelope(op: Operation, s: Surroundings, p: Parts, v: Round, id: AttemptId, model: ModelId)
    returns (o: Outcome)
    requires InFlight(op, s, p, v, id, model) && RecordedAs(op.row, s.reply(id), AttemptCompleted)
    modifies p.session, p.lease, p.target
    ensures RoundOver(op, s, p, Returned(o), false)
    ensures PromotedOnly(old(p.target.promoted), p.target.promoted, Last(p.session.attempts), o)
    ensures Last(p.session.attempts) == Attempt(id, Some(model), true, true, Some(AttemptCompleted))
    ensures o == CompletionOutcome(op, s, id)
  {
    ghost var l := View(p);
    p.session.ReportAttemptOutcome(id, AttemptCompleted);
    ghost var l' := View(p);
    o := PromoteCompleted(op, s, p, id);
    EndSent(op, s, l, l', v, id, model, p.selection.switchedOff, AttemptCompleted, o);
  }

  /** The provider says itself that there is no result. */
  method EndDeclared(op: Operation, s: Surroundings, p: Parts, v: Round, id: AttemptId, model: ModelId,
                     envelope: Envelope)
    returns (o: Outcome)
    requires InFlight(op, s, p, v, id, model) && Answers(op.row, s.reply(id), envelope)
    requires envelope.CancelledEnvelope? || envelope.FailedEnvelope?
    modifies p.session
    ensures RoundOver(op, s, p, Returned(o), false)
    ensures Last(p.session.attempts).id == id && Last(p.session.attempts).outcome.Some?
    ensures
      o == if envelope.CancelledEnvelope? then Cancelled(envelope.byUser)
           else Failure(DeclaredByProvider(envelope.name), envelope.retryable, Some(model))
  {
    var a;
    match envelope {
      case CancelledEnvelope(byUser) =>
        a, o := if byUser then CallerCancelled else ProviderCancelled, Cancelled(byUser);
      case FailedEnvelope(name, retryable) =>
        a, o := DeclaredFailure, Failure(DeclaredByProvider(name), retryable, Some(model));
    }
    EndPlainly(op, s, p, v, id, model, a, o);
  }

  /** A permitted result that is not completed content. */
  method AnswerOtherwise(op: Operation, s: Surroundings, p: Parts, v: Round, id: AttemptId, model: ModelId,
                         envelope: Envelope)
    returns (o: Outcome)
    requires InFlight(op, s, p, v, id, model) && Answers(op.row, s.reply(id), envelope)
    requires !envelope.CompletedEnvelope?
    modifies p.session, p.record
    ensures RoundOver(op, s, p, Returned(o), false) && !o.Malformed? && !o.Completed?
    ensures Last(p.session.attempts).id == id && Last(p.session.attempts).outcome.Some?
    ensures envelope.QuestionsEnvelope? ==> o == QuestionsOutcome(op, s, id, Some(model))
  {
    if envelope.QuestionsEnvelope? {
      o := AskQuestions(op, s, p, v, id, model);
    } else {
      o := EndDeclared(op, s, p, v, id, model, envelope);
    }
  }

  /** `settleEnvelope`: a result of a permitted kind and content type takes effect, any other is malformed. */
  method SettleEnvelope(op: Operation, s: Surroundings, p: Parts, v: Round, id: AttemptId, model: ModelId,
                        envelope: Envelope)
    returns (o: Outcome)
    requires InFlight(op, s, p, v, id, model)
    requires AnswerOf(s.reply(id)) == Some(envelope) && !BreaksContentRule(op.row, envelope)
    modifies p.session, p.record, p.lease, p.target
    ensures RoundOver(op, s, p, Returned(o), false)
    ensures PromotedOnly(old(p.target.promoted), p.target.promoted, Last(p.session.attempts), o)
    ensures Last(p.session.attempts).id == id && Last(p.session.attempts).outcome.Some?
    ensures o.Malformed? <==> !Acceptable(op.row, envelope)
    ensures envelope.CompletedEnvelope? && Acceptable(op.row, envelope) ==> o == CompletionOutcome(op, s, id)
    ensures envelope.QuestionsEnvelope? && Acceptable(op.row, envelope) ==>
      o == QuestionsOutcome(op, s, id, Some(model))
  {
    if Acceptable(op.row, envelope) && envelope.CompletedEnvelope? {
      assert RecordedAs(op.row, s.reply(id), AttemptCompleted);
      o := CompleteEnvelope(op, s, p, v, id, model);
    } else if Acceptable(op.row, envelope) {
      o := AnswerOtherwise(op, s, p, v, id, model, envelope);
    } else {
      o := PlainlyMalformed(ContentSchemaMismatch, Some(model));
      EndPlainly(op, s, p, v, id, model, MalformedResult, o);
    }
  }

  /** A malformed result, stamped with the press's call count for rows whose results are retried. */
  function StampedNow(op: Operation, v: Round, id: AttemptId, model: ModelId, code: Code, candidateCount: nat): Outcome
  {
    var stamp := op.row.RetryEligible();
    Malformed(code, Some(id), Some(model), if stamp then Some(v.invocations) else None,
              if stamp then Some(Budget(candidateCount)) else None, [])
  }

  /** Is this the rejection that the reply earns: a broken content rule, or a malformed result with its stamp? */
  predicate RejectionOf(op: Operation, s: Surroundings, v: Round, id: AttemptId, model: ModelId, rejected: Outcome,
                        foreign: bool, candidateCount: nat)
  {
    var reply := s.reply(id);
    var code := if foreign then ResultCorrelationMismatch else BrokenFrame;
    (rejected == BrokenContract(id, Some(model)) && !foreign &&
     reply.Framed? && BreaksContentRule(op.row, reply.envelope)) ||
    (rejected == StampedNow(op, v, id, model, code, candidateCount) &&
     if foreign then reply.Misframed? && reply.foreignCorrelation else BrokenFraming(reply))
  }

  /** How the attempt is settled: terminally, or with the next candidate still to come. */
  function RejectionKind(rejected: Outcome, foreign: bool, onTheWay: bool): AttemptOutcome
  {
    if rejected.Failed? then (if onTheWay then ContractFailurePreFallback else ContractFailure)
    else if foreign then CorrelationMismatch
    else if onTheWay then MalformedResultPreFallback
    else MalformedResult
  }

  lemma RejectionRecorded(op: Operation, s: Surroundings, v: Round, id: AttemptId, model: ModelId, rejected: Outcome,
                          foreign: bool, candidateCount: nat, onTheWay: bool)
    requires RejectionOf(op, s, v, id, model, rejected, foreign, candidateCount)
    requires onTheWay ==> op.row.RetryEligible() && !foreign
    ensures RecordedAs(op.row, s.reply(id), RejectionKind(rejected, foreign, onTheWay))
  {
  }

  method AdvancePast(op: Operation, s: Surroundings, p: Parts, v: Round, id: AttemptId, model: ModelId,
                     rejected: Outcome)
    returns (v': Round)
    requires InFlight(op, s, p, v, id, model)
    requires RejectionOf(op, s, v, id, model, rejected, false, p.selection.CandidateCount())
    requires op.row.RetryEligible() && v.invocations < Budget(p.selection.CandidateCount())
    modifies p.session
    ensures AtHead(op, s, p, v')
    ensures v' == v.(armed := true, history := v.history + [OwnRecord(rejected)], lastRejected := Some(rejected))
    ensures Last(p.session.attempts).outcome == Some(RejectionKind(rejected, false, true))
  {
    ghost var l := View(p);
    var a := RejectionKind(rejected, false, true);
    RejectionRecorded(op, s, v, id, model, rejected, false, p.selection.CandidateCount(), true);
    ReportSent(op, s, p, v, id, model, a, l);
    ArmedFlying(op, s, l, v, id, model);
    v' := v.(armed := true);
    RejectedGrounded(op, s, l, View(p), v', id, model, a, rejected);
    v' := v'.(history := v.history + [OwnRecord(rejected)], lastRejected := Some(rejected));
  }

  /** The rejection is what the reply and the log make of the attempt. */
  lemma RejectionSettles(op: Operation, s: Surroundings, l: Ledger, l': Ledger, v: Round, id: AttemptId, model: ModelId,
                         switchedOff: seq<ModelId>, rejected: Outcome, foreign: bool, h: seq<AttemptRecord>)
    requires RejectionOf(op, s, v, id, model, rejected, foreign, Count(l)) && v.invocations == Seed(op) + |l.calls|
    requires l'.attempts != [] && l'.calls == l.calls && l'.ranked == l.ranked && History(op, s, l') == h
    requires Last(l'.attempts) == Attempt(id, Some(model), true, true, Some(RejectionKind(rejected, foreign, false)))
    ensures SettlesAs(op, s, l', switchedOff, AttachHistory(rejected, h))
  {
  }

  lemma EndRejectedSent(op: Operation, s: Surroundings, l: Ledger, l': Ledger, v: Round, id: AttemptId, model: ModelId,
                        switchedOff: seq<ModelId>, rejected: Outcome, foreign: bool)
    requires Flying(op, s, l, v, id, model)
    requires Settled(l, l', RejectionKind(rejected, foreign, false)) && WellLogged(l'.attempts)
    requires RejectionOf(op, s, v, id, model, rejected, foreign, Count(l))
    requires foreign || !op.row.RetryEligible() || v.invocations >= Budget(Count(l))
    ensures Finished(op, s, l', switchedOff, AttachHistory(rejected, v.history + [OwnRecord(rejected)]))
  {
    var a, h := RejectionKind(rejected, foreign, false), v.history + [OwnRecord(rejected)];
    RejectionRecorded(op, s, v, id, model, rejected, foreign, Count(l), false);
    LandedHistory(op, s, l, l', v, id, model, a, OwnRecord(rejected));
    RejectionSettles(op, s, l, l', v, id, model, switchedOff, rejected, foreign, h);
    if op.row.RetryEligible() && !foreign {
      LastChance(op, s, l, l', v, id, model, a);
    }
    EndSent(op, s, l, l', v, id, model, switchedOff, a, AttachHistory(rejected, h));
  }

  method EndOnRejected(op: Operation, s: Surroundings, p: Parts, v: Round, id: AttemptId, model: ModelId,
                       rejected: Outcome, foreign: bool)
    returns (o: Outcome)
    requires InFlight(op, s, p, v, id, model)
    requires RejectionOf(op, s, v, id, model, rejected, foreign, p.selection.CandidateCount())
    requires foreign || !op.row.RetryEligible() || v.invocations >= Budget(p.selection.CandidateCount())
    modifies p.session
    ensures RoundOver(op, s, p, Returned(o), false) && o == AttachHistory(rejected, v.history + [OwnRecord(rejected)])
    ensures Last(p.session.attempts).outcome == Some(RejectionKind(rejected, foreign, false))
  {
    ghost var l := View(p);
    var a := RejectionKind(rejected, foreign, false);
    RejectionRecorded(op, s, v, id, model, rejected, foreign, p.selection.CandidateCount(), false);
    ReportSent(op, s, p, v, id, model, a, l);
    assert !EndsRecord(op.row, s, Last(p.session.attempts));
    o := AttachHistory(rejected, v.history + [OwnRecord(rejected)]);
    EndRejectedSent(op, s, l, View(p), v, id, model, p.selection.switchedOff, rejected, foreign);
    OverUnposted(op, s, p, o);
  }

  /** A rejected result: the next candidate while the budget lasts, else the end, with everything tried so far. */
  method HandleRejected(op: Operation, s: Surroundings, p: Parts, v: Round, id: AttemptId, model: ModelId,
                        rejected: Outcome, foreign: bool)
    returns (t: Turn, v': Round)
    requires InFlight(op, s, p, v, id, model)
    requires RejectionOf(op, s, v, id, model, rejected, foreign, p.selection.CandidateCount())
    modifies p.session
    ensures t.Onward? <==> !foreign && op.row.RetryEligible() && v.invocations < Budget(p.selection.CandidateCount())
    ensures
      var h := v.history + [OwnRecord(rejected)];
      if t.Onward? then AtHead(op, s, p, v') && v' == v.(armed := true, history := h, lastRejected := Some(rejected))
      else RoundOver(op, s, p, t.exit, false) && t.exit == Returned(AttachHistory(rejected, h))
    ensures p.session.attempts != []
    ensures Last(p.session.attempts).outcome == Some(RejectionKind(rejected, foreign, t.Onward?))
  {
    if !foreign && op.row.RetryEligible() && v.invocations < Budget(p.selection.CandidateCount()) {
      v' := AdvancePast(op, s, p, v, id, model, rejected);
      t := Onward;
    } else {
      v' := v;
      var o := EndOnRejected(op, s, p, v, id, model, rejected, foreign);
      t := Stop(Returned(o));
    }
  }

  // ---------- one turn ----------

  predicate StepsOn(v: Round, v': Round)
  {
    (v'.carried.None? && SameRepeats(v, v')) ||
    (v'.carried.Some? && v'.networkRetries + v'.capacityRetries == v.networkRetries + v.capacityRetries + 1)
  }

  /** The payload cannot be read back. */
  method EndUnsealable(op: Operation, s: Surroundings, p: Parts, v: Round, id: AttemptId, model: ModelId,
                       why: Unreadable)
    returns (o: Outcome)
    requires InFlight(op, s, p, v, id, model) && s.reply(id) == Unsealable(why)
    modifies p.session
    ensures RoundOver(op, s, p, Returned(o), false) && !o.Completed?
  {
    o := match why
         case SpoolStoreMissing => Unavailable(WorkflowStorageUnavailable, None)
         case ForeignSpool => PlainlyMalformed(ResultCorrelationMismatch, Some(model))
         case SpoolUnclaimable => Failure(ResultSpoolFailed, false, None);
    EndPlainly(op, s, p, v, id, model, if why.ForeignSpool? then CorrelationMismatch else MalformedResult, o);
  }

  lemma CancellationSettles(op: Operation, s: Surroundings, l: Ledger, switchedOff: seq<ModelId>, id: AttemptId,
                            model: ModelId, byCaller: bool)
    requires l.attempts != [] && l.cursor <= |l.ranked|
    requires Last(l.attempts) == Attempt(id, Some(model), true, true, Some(CancelledBy(byCaller)))
    requires s.reply(id) == Cancellation(byCaller) && s.prepare(id).Prepared?
    ensures SettlesAs(op, s, l, switchedOff, Failure(CancelCode(byCaller), true, Some(model)))
    ensures CandidateFirst(op, s, l)
  {
  }

  function CancelledBy(byCaller: bool): AttemptOutcome { if byCaller then CallerCancelled else ProviderCancelled }

  function CancelCode(byCaller: bool): Code { if byCaller then CallerCancelledCode else ProviderCancelledCode }

  /** Settle the attempt that was sent; its cancellation ends the round. */
  method EndOnCancellation(op: Operation, s: Surroundings, p: Parts, v: Round, id: AttemptId, model: ModelId,
                           byCaller: bool)
    requires InFlight(op, s, p, v, id, model) && s.reply(id) == Cancellation(byCaller)
    modifies p.session
    ensures Ready(p) && p.session.attempts != []
    ensures
      Finished(op, s, View(p), p.selection.switchedOff, Failure(CancelCode(byCaller), true, Some(model)))
    ensures Last(p.session.attempts) == Attempt(id, Some(model), true, true, Some(CancelledBy(byCaller)))
  {
    ghost var l := View(p);
    var a, o := CancelledBy(byCaller), Failure(CancelCode(byCaller), true, Some(model));
    ReportSent(op, s, p, v, id, model, a, l);
    CancellationSettles(op, s, View(p), p.selection.switchedOff, id, model, byCaller);
    EndSent(op, s, l, View(p), v, id, model, p.selection.switchedOff, a, o);
  }

  /** A cancellation of a call that reached the provider is a failure, never a reason to try another candidate. */
  method EndCancelledSent(op: Operation, s: Surroundings, p: Parts, v: Round, id: AttemptId, model: ModelId,
                          byCaller: bool)
    returns (o: Outcome, settleTried: bool)
    requires InFlight(op, s, p, v, id, model) && s.reply(id) == Cancellation(byCaller)
    modifies p.session, p.record
    ensures RoundOver(op, s, p, Returned(o), settleTried) && settleTried == op.row.AsksQuestions()
    ensures o == Failure(CancelCode(byCaller), true, Some(model))
  {
    o := Failure(CancelCode(byCaller), true, Some(model));
    EndOnCancellation(op, s, p, v, id, model, byCaller);
    settleTried := CloseRecord(op, s, p, id, o, false);
  }

  method HandleReply(op: Operation, s: Surroundings, p: Parts, v: Round, id: AttemptId, model: ModelId, reply: Reply)
    returns (t: Turn, v': Round, settleTried: bool)
    requires InFlight(op, s, p, v, id, model) && reply == s.reply(id)
    modifies p.session, p.record, p.lease, p.target
    ensures t.Stop? ==> RoundOver(op, s, p, t.exit, settleTried) && t.exit.Returned?
    ensures t.Stop? ==>
      PromotedOnly(old(p.target.promoted), p.target.promoted, Last(p.session.attempts), t.exit.outcome)
    ensures t.Onward? ==> AtHead(op, s, p, v') && StepsOn(v, v') && p.target.promoted == old(p.target.promoted)
  {
    settleTried, v' := false, v;
    match reply
    case Cancellation(byCaller) =>
      var o;
      o, settleTried := EndCancelledSent(op, s, p, v, id, model, byCaller);
      t := Stop(Returned(o));
    case TooLarge =>
      var o := PlainlyMalformed(ResultLimitExceeded, Some(model));
      EndPlainly(op, s, p, v, id, model, Overflow, o);
      t := Stop(Returned(o));
    case TransportFailure(_, _, _, _) =>
      t, v', settleTried := HandleTransport(op, s, p, v, id, model, reply);
    case Unsealable(why) =>
      var o := EndUnsealable(op, s, p, v, id, model, why);
      t := Stop(Returned(o));
    case Misframed(foreign, plainAnswer) =>
      t, v' := HandleMisframed(op, s, p, v, id, model, foreign, plainAnswer);
    case Framed(envelope) =>
      t, v' := HandleFramed(op, s, p, v, id, model, envelope);
  }

  /** A text without any frame counts as the completed content, unchecked by the row's content rule. */
  method HandleMisframed(op: Operation, s: Surroundings, p: Parts, v: Round, id: AttemptId, model: ModelId,
                         foreign: bool, plainAnswer: bool)
    returns (t: Turn, v': Round)
    requires InFlight(op, s, p, v, id, model) && s.reply(id) == Misframed(foreign, plainAnswer)
    modifies p.session, p.record, p.lease, p.target
    ensures t.Stop? ==> RoundOver(op, s, p, t.exit, false) && t.exit.Returned?
    ensures t.Stop? ==>
      PromotedOnly(old(p.target.promoted), p.target.promoted, Last(p.session.attempts), t.exit.outcome)
    ensures t.Onward? ==> AtHead(op, s, p, v') && StepsOn(v, v') && p.target.promoted == old(p.target.promoted)
    // on to the next candidate: for text rows other than edit executions, within the larger of three and their number
    ensures
      var count := p.selection.CandidateCount();
      t.Onward? <==>
        !foreign && !plainAnswer && op.row.textMode && !op.row.editExecution &&
        v.invocations < (if count > 3 then count else 3)
  {
    v' := v;
    if plainAnswer && !foreign {
      var o := SettleEnvelope(op, s, p, v, id, model, CompletedEnvelope(true, true));
      t := Stop(Returned(o));
    } else {
      var code := if foreign then ResultCorrelationMismatch else BrokenFrame;
      var m := StampedNow(op, v, id, model, code, p.selection.CandidateCount());
      t, v' := HandleRejected(op, s, p, v, id, model, m, foreign);
    }
  }

  method HandleFramed(op: Operation, s: Surroundings, p: Parts, v: Round, id: AttemptId, model: ModelId,
                      envelope: Envelope)
    returns (t: Turn, v': Round)
    requires InFlight(op, s, p, v, id, model) && s.reply(id) == Framed(envelope)
    modifies p.session, p.record, p.lease, p.target
    ensures t.Stop? ==> RoundOver(op, s, p, t.exit, false) && t.exit.Returned?
    ensures t.Stop? ==>
      PromotedOnly(old(p.target.promoted), p.target.promoted, Last(p.session.attempts), t.exit.outcome)
    ensures t.Onward? ==> AtHead(op, s, p, v') && StepsOn(v, v') && p.target.promoted == old(p.target.promoted)
    ensures
      var count := p.selection.CandidateCount();
      t.Onward? <==>
        envelope.CompletedEnvelope? && envelope.typeMatches && op.row.hasContentRule && !envelope.contractHolds &&
        op.row.textMode && !op.row.editExecution && v.invocations < (if count > 3 then count else 3)
  {
    v' := v;
    if BreaksContentRule(op.row, envelope) {
      t, v' := HandleRejected(op, s, p, v, id, model, BrokenContract(id, Some(model)), false);
    } else {
      var o := SettleEnvelope(op, s, p, v, id, model, envelope);
      t := Stop(Returned(o));
    }
  }

  method SendAndHandle(op: Operation, s: Surroundings, p: Parts, v: Round, id: AttemptId, model: ModelId)
    returns (t: Turn, v': Round, settleTried: bool)
    requires Loaded(op, s, p, v, id, model)
    modifies p.session, p.record, p.lease, p.target, p.broker
    ensures t.Stop? ==> RoundOver(op, s, p, t.exit, settleTried) && t.exit.Returned?
    ensures t.Stop? ==>
      PromotedOnly(old(p.target.promoted), p.target.promoted, Last(p.session.attempts), t.exit.outcome)
    ensures t.Onward? ==> AtHead(op, s, p, v') && StepsOn(v, v') && p.target.promoted == old(p.target.promoted)
    ensures p.broker.calls == old(p.broker.calls) + [id]
  {
    ghost var l := View(p);
    OpenIsUnsent(op, s, l, v);
    var reply := p.broker.Invoke(id, s, p.lease, p.record, KeepsRecord(op));
    var v1 := Restamped(v, Budget(p.selection.CandidateCount()));
    TakeOff(op, s, l, View(p), v, id, model);
    t, v', settleTried := HandleReply(op, s, p, v1, id, model, reply);
  }

  method PrepareAndSend(op: Operation, s: Surroundings, p: Parts, v: Round, id: AttemptId, model: ModelId,
                        reserved: bool, assembled: bool)
    returns (t: Turn, v': Round, settleTried: bool)
    requires Holding(op, s, p, v, id, model) && RecordOpen(op, p.record.state, !reserved)
    requires assembled ==> s.assemble(id)
    modifies p.session, p.record, p.lease, p.target, p.broker
    ensures t.Stop? ==> RoundOver(op, s, p, t.exit, settleTried)
    ensures t.Stop? ==> Promotes(old(p.target.promoted), p, t.exit)
    ensures t.Onward? ==> AtHead(op, s, p, v') && StepsOn(v, v') && p.target.promoted == old(p.target.promoted)
  {
    var prepared;
    prepared, v', settleTried := PrepareAttempt(op, s, p, v, id, model, reserved, assembled);
    match prepared
    case ReadyToSend => t, v', settleTried := SendAndHandle(op, s, p, v', id, model);
    case PassedOver => t := Onward;
    case StopPreparing(exit) => t := Stop(exit);
  }

  /** The workflow task changed exactly when this round's own attempt completed. */
  ghost predicate Promotes(before: seq<AttemptId>, p: Parts, exit: Exit)
    reads p.session, p.target
  {
    p.session.attempts != [] &&
    match exit
    case Threw => p.target.promoted == before
    case Returned(o) => PromotedOnly(before, p.target.promoted, Last(p.session.attempts), o)
  }

  /** The turn passes over a candidate, or takes it. */
  method TakeReservation(op: Operation, s: Surroundings, p: Parts, v: Round, r: Reserving)
    returns (t: Turn, v': Round, settleTried: bool)
    requires RecordOpen(op, p.record.state, false)
    requires LeftWith(op, s, p, v, r)
    modifies p.session, p.record, p.lease, p.target, p.broker
    ensures t.Stop? ==> RoundOver(op, s, p, t.exit, settleTried) && Promotes(old(p.target.promoted), p, t.exit)
    ensures t.Onward? ==> AtHead(op, s, p, v') && p.target.promoted == old(p.target.promoted) && !r.StopReserving?
  {
    settleTried, v' := false, v;
    match r
    case GotHand(id, model) => t, v', settleTried := PrepareAndSend(op, s, p, v, id, model, true, false);
    case SkippedCandidate => t := Onward;
    case StopReserving(o) =>
      UnsentIsOver(op, s, p, o);
      t := Stop(Returned(o));
  }

  /** A turn with a reservation of its own. */
  method TakeFreshTurn(op: Operation, s: Surroundings, p: Parts, v: Round)
    returns (t: Turn, v': Round, settleTried: bool)
    requires Between(op, s, p, v) && v.carried.None? && RecordOpen(op, p.record.state, false)
    modifies p.session, p.selection, p.record, p.lease, p.target, p.broker
    ensures t.Stop? ==> RoundOver(op, s, p, t.exit, settleTried) && Promotes(old(p.target.promoted), p, t.exit)
    ensures t.Onward? ==> AtHead(op, s, p, v') && p.selection.cursor > old(p.selection.cursor)
    ensures t.Onward? ==> p.target.promoted == old(p.target.promoted)
  {
    var r;
    r, v' := ReserveFresh(op, s, p, v);
    ghost var cursor := p.selection.cursor;
    t, v', settleTried := TakeReservation(op, s, p, v', r);
    assert p.selection.cursor == cursor;
  }

  method TakeTurn(op: Operation, s: Surroundings, p: Parts, v: Round) returns (t: Turn, v': Round, settleTried: bool)
    requires AtHead(op, s, p, v)
    modifies p.session, p.selection, p.record, p.lease, p.target, p.broker
    ensures t.Stop? ==> RoundOver(op, s, p, t.exit, settleTried) && Promotes(old(p.target.promoted), p, t.exit)
    ensures t.Onward? ==>
      AtHead(op, s, p, v') && Advanced(old(p.selection.cursor), v, p.selection.cursor, v') &&
      p.target.promoted == old(p.target.promoted)
  {
    if v.carried.Some? {
      var c := v.carried.value;
      t, v', settleTried := PrepareAndSend(op, s, p, v.(carried := None), c.id, c.model, false, c.assembled);
    } else {
      t, v', settleTried := TakeFreshTurn(op, s, p, v);
    }
  }

  /** Where a round starts: seeded by the earlier operations of the press, with the candidate admission reserved. */
  function StartRound(op: Operation, initial: Option<Carried>): Round
  {
    Round(Seed(op), op.prior, None, op.row.RetryEligible() && op.seed.Some?, if initial.Some? then 1 else 0, 0, 0, {},
          !op.resumed, initial)
  }

  /** The attempt loop. It ends for every provider: each turn goes on to a later candidate, or uses up one of the
      three repeats of this one, or uses up the reservation it was handed. */
  method RunProviderRow(op: Operation, s: Surroundings, p: Parts, initial: Option<Carried>)
    returns (exit: Exit, settleTried: bool)
    requires AtHead(op, s, p, StartRound(op, initial))
    modifies p.session, p.selection, p.record, p.lease, p.target, p.broker
    ensures RoundOver(op, s, p, exit, settleTried) && Promotes(old(p.target.promoted), p, exit)
  {
    var v := StartRound(op, initial);
    while true
      invariant AtHead(op, s, p, v) && p.target.promoted == old(p.target.promoted)
      decreases |p.selection.ranked| - p.selection.cursor,
        MAX_NETWORK_RETRIES + MAX_CAPACITY_RETRIES - v.networkRetries - v.capacityRetries,
        if v.carried.Some? then 1 else 0
    {
      var t;
      t, v, settleTried := TakeTurn(op, s, p, v);
      if t.Stop? {
        return t.exit, settleTried;
      }
    }
  }
}
