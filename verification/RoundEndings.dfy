/** What the loop knows at the places a turn goes through, and why every ending keeps the round's promises. */
module RoundEndings {
  import opened Wrappers
  import opened ProviderSelection
  import opened TaskOutcome
  import opened RoundParts
  import opened ChainExhaustion
  import opened AttemptLog
  import opened AttemptBooks
  import opened RoundSteps

  // ---------- the places ----------

  /** No provider call without the invocation claim, where one is needed. */
  ghost predicate GatePassed(op: Operation, s: Surroundings, l: Ledger, v: Round)
  {
    (op.resumed && v.gateChecked ==> s.gate.Proceed?) && (l.calls != [] ==> v.gateChecked)
  }

  /** Between two attempts, or with an attempt at hand that was not sent. */
  ghost predicate Grounded(op: Operation, s: Surroundings, l: Ledger, v: Round, reserved: nat)
  {
    Books(op, s, l, v, |l.calls|) && Room(op, l, v, reserved) && GatePassed(op, s, l, v) &&
    WellLogged(l.attempts) && LogIsTrue(op, s, l)
  }

  /** The provider was called for the last attempt, which is not settled yet. */
  ghost predicate Flying(op: Operation, s: Surroundings, l: Ledger, v: Round, id: AttemptId, model: ModelId)
  {
    l.calls != [] && Last(l.calls) == id && Books(op, s, l, v, |l.calls| - 1) && WellLogged(l.attempts) &&
    (Seed(op) == 0 ==> Budget(Count(l)) - v.invocations >= Count(l) - v.freshReserved) &&
    WithinBudget(op, l) && GatePassed(op, s, l, v) && v.carried.None? &&
    l.attempts != [] && Last(l.attempts) == Attempt(id, Some(model), true, true, None) &&
    LogIsTrue(op, s, l) && s.prepare(id).Prepared?
  }

  ghost predicate Settled(l: Ledger, l': Ledger, a: AttemptOutcome)
  {
    l.attempts != [] && LastBecomes(l, l', Last(l.attempts).(outcome := Some(a)))
  }

  lemma RoomIsWithinBudget(op: Operation, s: Surroundings, l: Ledger, v: Round, reserved: nat)
    requires Grounded(op, s, l, v, reserved)
    ensures WithinBudget(op, l)
  {
  }

  lemma LastIsTrue(op: Operation, s: Surroundings, l: Ledger)
    requires l.attempts != [] && LogIsTrue(op, s, l)
    ensures TrueTo(op, s, Count(l), Last(l.attempts))
  {
    assert Last(l.attempts) in l.attempts;
  }

  lemma TruthSpreads(op: Operation, s: Surroundings, l: Ledger, l': Ledger)
    requires l.attempts != [] && LogIsTrue(op, s, l) && Count(l') == Count(l)
    requires l'.attempts != [] && l'.attempts == WithLast(l.attempts, Last(l'.attempts))
    requires TrueTo(op, s, Count(l), Last(l'.attempts))
    ensures LogIsTrue(op, s, l')
  {
  }

  lemma {:induction false} SentIdsOfLog(s: Surroundings, attempts: seq<Attempt>)
    ensures forall id :: id in SentIds(s, attempts) ==> exists a :: a in attempts && Reached(s, a) && a.id == id
  {
    if attempts != [] {
      var front := attempts[..|attempts| - 1];
      SentIdsOfLog(s, front);
      forall id | id in SentIds(s, attempts)
        ensures exists a :: a in attempts && Reached(s, a) && a.id == id
      {
        if id in SentIds(s, front) {
          var a :| a in front && Reached(s, a) && a.id == id;
          assert a in attempts;
        } else {
          assert Last(attempts) in attempts;
        }
      }
    }
  }

  /** No call was made yet for the attempt that is still open. */
  lemma OpenIsUnsent(op: Operation, s: Surroundings, l: Ledger, v: Round)
    requires Grounded(op, s, l, v, 1) && l.attempts != [] && Last(l.attempts).outcome.None?
    ensures Last(l.attempts).id !in l.calls
  {
    SentIdsOfLog(s, l.attempts);
    assert l.calls == l.calls[..|l.calls|];
    forall a | a in l.attempts && Reached(s, a)
      ensures a.id != Last(l.attempts).id
    {
      var i :| 0 <= i < |l.attempts| && l.attempts[i] == a;
      assert i < |l.attempts| - 1;
    }
  }

  /** One more call is within the budget, and leaves the rest of the candidates theirs. */
  lemma OneMoreCall(op: Operation, l: Ledger, l': Ledger, v: Round)
    requires Room(op, l, v, 1) && v.invocations == Seed(op) + |l.calls|
    requires l'.ranked == l.ranked && |l'.calls| == |l.calls| + 1
    ensures WithinBudget(op, l')
    ensures Seed(op) == 0 ==> Budget(Count(l')) - (v.invocations + 1) >= Count(l') - v.freshReserved
  {
  }

  lemma SameLogIsTrue(op: Operation, s: Surroundings, l: Ledger, l': Ledger)
    requires LogIsTrue(op, s, l) && l'.attempts == l.attempts && l'.ranked == l.ranked
    ensures LogIsTrue(op, s, l')
  {
  }

  /** The provider is called for a prepared attempt. */
  lemma TakeOff(op: Operation, s: Surroundings, l: Ledger, l': Ledger, v: Round, id: AttemptId, model: ModelId)
    requires Grounded(op, s, l, v, 1) && v.gateChecked && v.carried.None? && s.prepare(id).Prepared?
    requires l.attempts != [] && Last(l.attempts) == Attempt(id, Some(model), true, true, None)
    requires l' == l.(calls := l.calls + [id])
    ensures Flying(op, s, l', Restamped(v, Budget(Count(l))), id, model)
  {
    Send(op, s, l, l', v, id);
    OneMoreCall(op, l, l', v);
    SameLogIsTrue(op, s, l, l');
  }

  lemma AllocatedIsTrue(op: Operation, s: Surroundings, l: Ledger, l': Ledger, id: AttemptId)
    requires LogIsTrue(op, s, l) && l'.ranked == l.ranked
    requires l'.attempts == l.attempts + [Attempt(id, None, false, false, None)]
    ensures LogIsTrue(op, s, l')
  {
  }

  lemma AllocateGrounded(op: Operation, s: Surroundings, l: Ledger, l': Ledger, v: Round, reserved: nat, id: AttemptId)
    requires Grounded(op, s, l, v, reserved) && WellLogged(l'.attempts)
    requires l' == l.(attempts := l.attempts + [Attempt(id, None, false, false, None)], nextId := l'.nextId)
    requires LastIsPast(op, l)
    ensures Grounded(op, s, l', v, reserved) && Trail(l'.attempts) == Trail(l.attempts)
  {
    var a := Attempt(id, None, false, false, None);
    Allocate(op, s, l, l', v, id);
    LogAppends(op.row, s, l.attempts, a);
    AllocatedIsTrue(op, s, l, l', id);
  }

  /** An attempt that was not claimed is settled. */
  lemma SettleGrounded(op: Operation, s: Surroundings, l: Ledger, l': Ledger, v: Round, reserved: nat)
    requires Grounded(op, s, l, v, reserved) && WellLogged(l'.attempts)
    requires l.attempts != [] && Last(l.attempts).outcome.None?
    requires !Last(l.attempts).claimed && !Last(l.attempts).invoked
    requires Settled(l, l', UnavailableBeforeInvocation)
    requires
      Last(l.attempts).model.Some? ==>
        HasCause(op, s, Count(l), Last(l.attempts).id, Last(l.attempts).model.value)
    ensures Grounded(op, s, l', v, reserved) && History(op, s, l') == History(op, s, l)
  {
    Settle(op, s, l, l', v, |l.calls|);
    LastIsTrue(op, s, l);
    TruthSpreads(op, s, l, l');
    assert AfterSettling(op, s, l, v, Last(l'.attempts)) == v;
  }

  lemma PassUnsupportedGrounded(op: Operation, s: Surroundings, l: Ledger, l': Ledger, v: Round)
    requires Grounded(op, s, l, v, 0) && WellLogged(l'.attempts)
    requires l.cursor < |l.ranked| && !l.ranked[l.cursor].supported
    requires l.attempts != [] && Last(l.attempts) == Attempt(Last(l.attempts).id, None, false, false, None)
    requires
      LastBecomes(l.(cursor := l.cursor + 1), l', Last(l.attempts).(outcome := Some(UnavailableBeforeInvocation)))
    ensures Grounded(op, s, l', v, 0)
  {
    var l1 := l.(attempts := l'.attempts);
    SettleGrounded(op, s, l, l1, v, 0);
    CursorGrounded(op, s, l1, l', v);
  }

  /** The cursor moves on by one, over a candidate that cannot serve the mode. */
  lemma CursorGrounded(op: Operation, s: Surroundings, l: Ledger, l': Ledger, v: Round)
    requires Grounded(op, s, l, v, 0) && l.cursor < |l.ranked| && !l.ranked[l.cursor].supported
    requires l' == l.(cursor := l.cursor + 1)
    ensures Grounded(op, s, l', v, 0)
  {
    SkipGroup(l, l');
    NextReserve(op, l, l', v);
    assert Passed(op, l') == Passed(op, l);
    assert PassesOver(op, l') && CallsMatch(s, l', |l'.calls|) && Tallies(op, s, l', v) && LogIsTrue(op, s, l');
  }

  lemma ReserveGrounded(op: Operation, s: Surroundings, l: Ledger, l': Ledger, v: Round, v': Round)
    requires Grounded(op, s, l, v, 0) && WellLogged(l'.attempts)
    requires l.cursor < |l.ranked| && l.ranked[l.cursor].supported
    requires l.attempts != [] && Last(l.attempts) == Attempt(Last(l.attempts).id, None, false, false, None)
    requires s.attach(Last(l.attempts).id)
    requires LastBecomes(l.(cursor := l.cursor + 1), l', Last(l.attempts).(model := Some(l.ranked[l.cursor].model)))
    requires v' == v.(networkRetries := 0, capacityRetries := 0, freshReserved := v.freshReserved + 1)
    ensures Grounded(op, s, l', v', 1)
  {
    ReserveRanked(op, s, l, l', v, v');
    TruthSpreads(op, s, l, l');
  }

  /** Claiming the attempt at hand, or using up its invocation. */
  lemma PrepareGrounded(op: Operation, s: Surroundings, l: Ledger, l': Ledger, v: Round)
    requires Grounded(op, s, l, v, 1) && WellLogged(l'.attempts)
    requires l.attempts != [] && Last(l.attempts).outcome.None? && Last(l.attempts).model.Some?
    requires Last(l.attempts).model.value !in Passed(op, l)
    requires l'.attempts != [] && LastBecomes(l, l', Last(l'.attempts))
    requires Last(l'.attempts).model == Last(l.attempts).model && Last(l'.attempts).outcome.None?
    requires s.assemble(Last(l.attempts).id)
    requires
      Last(l'.attempts).invoked ==> s.hook(Last(l.attempts).id) && !s.prepare(Last(l.attempts).id).SetupThrows?
    ensures Grounded(op, s, l', v, 1)
  {
    LogMoves(op.row, s, l.attempts, Last(l'.attempts));
    StillPassesOver(op, l, l');
    TalliesStay(op, s, l, l', v);
    LastIsTrue(op, s, l);
    TruthSpreads(op, s, l, l');
  }

  /** A failed setup joins the history. */
  lemma SkipGrounded(op: Operation, s: Surroundings, l: Ledger, l': Ledger, v: Round, id: AttemptId, model: ModelId)
    requires Grounded(op, s, l, v, 1) && WellLogged(l'.attempts)
    requires l.attempts != [] && Last(l.attempts) == Attempt(id, Some(model), true, false, None)
    requires Settled(l, l', UnavailableBeforeInvocation) && s.prepare(id).SetupThrows?
    ensures Grounded(op, s, l', v.(history := v.history + [AttemptRecord(id, SetupFailed, Some(model), true)]), 1)
  {
    var a := Attempt(id, Some(model), true, false, Some(UnavailableBeforeInvocation));
    var v' := v.(history := v.history + [AttemptRecord(id, SetupFailed, Some(model), true)]);
    assert Last(l'.attempts) == a && AfterSettling(op, s, l, v, a) == v';
    Settle(op, s, l, l', v, |l.calls|);
    LastIsTrue(op, s, l);
    TruthSpreads(op, s, l, l');
  }

  lemma GateGrounded(op: Operation, s: Surroundings, l: Ledger, v: Round)
    requires Grounded(op, s, l, v, 1) && (op.resumed ==> s.gate.Proceed?)
    ensures Grounded(op, s, l, v.(gateChecked := true), 1)
  {
  }

  // ---------- endings before the provider was reached ----------

  lemma EndUnsent(op: Operation, s: Surroundings, l: Ledger, v: Round, reserved: nat, switchedOff: seq<ModelId>,
                  o: Outcome)
    requires Grounded(op, s, l, v, reserved) && l.attempts != [] && SettlesAs(op, s, l, switchedOff, o)
    requires Last(l.attempts).outcome.None? || Last(l.attempts).outcome.value.UnavailableBeforeInvocation?
    ensures Finished(op, s, l, switchedOff, o)
  {
    RoomIsWithinBudget(op, s, l, v, reserved);
  }

  /** The token was cancelled already: the invocation is used up and nothing was sent. */
  lemma EndCancelled(op: Operation, s: Surroundings, l: Ledger, l': Ledger, v: Round, switchedOff: seq<ModelId>)
    requires Grounded(op, s, l, v, 1) && WellLogged(l'.attempts)
    requires l.attempts != [] && Last(l.attempts).outcome.None? && Last(l.attempts).model.Some?
    requires Last(l.attempts).claimed && Last(l.attempts).model.value !in Passed(op, l)
    requires LastBecomes(l, l', Last(l.attempts).(invoked := true, outcome := Some(CallerCancelled)))
    requires s.prepare(Last(l.attempts).id).CancelledUnsent? && s.hook(Last(l.attempts).id)
    ensures Finished(op, s, l', switchedOff, Cancelled(true))
  {
    RoomIsWithinBudget(op, s, l, v, 1);
    var a := Last(l'.attempts);
    LogChanges(op.row, s, l.attempts, a);
    StillPassesOver(op, l, l');
    SettledCalls(s, l, l', |l.calls|, a);
    LastIsTrue(op, s, l);
    TruthSpreads(op, s, l, l');
    CancelledSettles(op, s, l', switchedOff);
  }

  lemma CancelledSettles(op: Operation, s: Surroundings, l: Ledger, switchedOff: seq<ModelId>)
    requires l.attempts != [] && Last(l.attempts).outcome == Some(CallerCancelled) && l.cursor <= |l.ranked|
    requires s.prepare(Last(l.attempts).id).CancelledUnsent?
    ensures SettlesAs(op, s, l, switchedOff, Cancelled(true)) && CandidateFirst(op, s, l)
  {
  }

  /** The last attempt was allocated in vain: no candidate remains for it. */
  ghost predicate NothingLeft(s: Surroundings, l: Ledger)
  {
    l.attempts != [] && Last(l.attempts).outcome == Some(UnavailableBeforeInvocation) &&
    Last(l.attempts).model.None? && s.attach(Last(l.attempts).id) && (Count(l) > 0 ==> l.cursor == |l.ranked|)
  }

  lemma RejectionIsListed(row: Row, s: Surroundings, attempts: seq<Attempt>)
    requires LastRejection(attempts).Some?
    requires forall a :: a in attempts && RejectedOnTheWay(a) ==> EntryOf(row, s, a) != []
    ensures Entries(row, s, attempts) != []
  {
    if !RejectedOnTheWay(Last(attempts)) {
      RejectionIsListed(row, s, attempts[..|attempts| - 1]);
    }
  }

  /** A rejection on the way left a record, so there is a latest one. */
  lemma RejectionHasHistory(op: Operation, s: Surroundings, l: Ledger)
    requires WellLogged(l.attempts) && LogIsTrue(op, s, l) && LastRejected(op, l).Some?
    ensures History(op, s, l) != []
  {
    forall a | a in l.attempts && RejectedOnTheWay(a)
      ensures EntryOf(op.row, s, a) != []
    {
      var i :| 0 <= i < |l.attempts| && l.attempts[i] == a;
      assert TrueTo(op, s, Count(l), a);
    }
    RejectionIsListed(op.row, s, l.attempts);
  }

  /** Nothing remains, and there is an earlier rejected result to report. */
  lemma EndRejected(op: Operation, s: Surroundings, l: Ledger, v: Round, switchedOff: seq<ModelId>)
    requires Grounded(op, s, l, v, 0) && v.lastRejected.Some? && NothingLeft(s, l)
    ensures v.history != [] && Finished(op, s, l, switchedOff, RejectionReport(v.lastRejected.value, v.history))
  {
    RejectionHasHistory(op, s, l);
    EndUnsent(op, s, l, v, 0, switchedOff, RejectionReport(v.lastRejected.value, v.history));
  }

  lemma EndExhausted(op: Operation, s: Surroundings, l: Ledger, v: Round, switchedOff: seq<ModelId>, o: Outcome)
    requires Grounded(op, s, l, v, 0) && v.lastRejected.None? && NothingLeft(s, l)
    requires ChainReport(l, switchedOff, s.quota, o)
    ensures Finished(op, s, l, switchedOff, o)
  {
    EndUnsent(op, s, l, v, 0, switchedOff, o);
  }

  // ---------- endings after the provider was reached ----------

  /** The attempt in flight is settled as its reply says. */
  ghost predicate LandsAs(op: Operation, s: Surroundings, l: Ledger, l': Ledger, id: AttemptId, a: AttemptOutcome)
  {
    Settled(l, l', a) && WellLogged(l'.attempts) && RecordedAs(op.row, s.reply(id), a)
  }

  lemma LandedIsTrue(op: Operation, s: Surroundings, l: Ledger, l': Ledger, id: AttemptId, model: ModelId,
                     a: AttemptOutcome)
    requires l.attempts != [] && Last(l.attempts) == Attempt(id, Some(model), true, true, None)
    requires LogIsTrue(op, s, l) && s.prepare(id).Prepared? && LandsAs(op, s, l, l', id, a)
    ensures LogIsTrue(op, s, l')
  {
    LastIsTrue(op, s, l);
    TruthSpreads(op, s, l, l');
  }

  lemma LandedBooks(op: Operation, s: Surroundings, l: Ledger, l': Ledger, v: Round, id: AttemptId, model: ModelId,
                    a: AttemptOutcome)
    requires l.calls != [] && Last(l.calls) == id && Books(op, s, l, v, |l.calls| - 1) && s.prepare(id).Prepared?
    requires l.attempts != [] && Last(l.attempts) == Attempt(id, Some(model), true, true, None) && Settled(l, l', a)
    ensures
      Books(op, s, l', AfterSettling(op, s, l, v, Attempt(id, Some(model), true, true, Some(a))), |l'.calls|)
  {
    assert Last(l'.attempts) == Attempt(id, Some(model), true, true, Some(a));
    Settle(op, s, l, l', v, |l.calls| - 1);
  }

  lemma Landed(op: Operation, s: Surroundings, l: Ledger, l': Ledger, v: Round, id: AttemptId, model: ModelId,
               a: AttemptOutcome)
    requires Flying(op, s, l, v, id, model) && LandsAs(op, s, l, l', id, a)
    ensures
      var last := Attempt(id, Some(model), true, true, Some(a));
      Last(l'.attempts) == last && Books(op, s, l', AfterSettling(op, s, l, v, last), |l'.calls|)
    ensures LogIsTrue(op, s, l')
  {
    LandedBooks(op, s, l, l', v, id, model, a);
    LandedIsTrue(op, s, l, l', id, model, a);
  }

  /** The history then ends with this attempt, if its reply is one that the round remembers. */
  lemma LandedHistory(op: Operation, s: Surroundings, l: Ledger, l': Ledger, v: Round, id: AttemptId, model: ModelId,
                      a: AttemptOutcome, r: AttemptRecord)
    requires Flying(op, s, l, v, id, model) && LandsAs(op, s, l, l', id, a)
    requires Remembered(op.row, s.reply(id)) == Some((r.code, r.skipOnRetry))
    requires r.attemptId == id && r.model == Some(model)
    ensures l'.attempts != [] && Last(l'.attempts) == Attempt(id, Some(model), true, true, Some(a))
    ensures History(op, s, l') == v.history + [r]
  {
    var last := Attempt(id, Some(model), true, true, Some(a));
    assert EntryOf(op.row, s, last) == [r];
    Landed(op, s, l, l', v, id, model, a);
    assert AfterSettling(op, s, l, v, last).history == v.history + [r];
  }

  lemma EndSent(op: Operation, s: Surroundings, l: Ledger, l': Ledger, v: Round, id: AttemptId, model: ModelId,
                switchedOff: seq<ModelId>, a: AttemptOutcome, o: Outcome)
    requires Flying(op, s, l, v, id, model) && LandsAs(op, s, l, l', id, a)
    requires SettlesAs(op, s, l', switchedOff, o) && CandidateFirst(op, s, l')
    ensures Finished(op, s, l', switchedOff, o)
  {
    Landed(op, s, l, l', v, id, model, a);
  }

  /** When the budget is spent, or every candidate has been reserved, the last rejection may end the round. */
  lemma LastChance(op: Operation, s: Surroundings, l: Ledger, l': Ledger, v: Round, id: AttemptId, model: ModelId,
                   a: AttemptOutcome)
    requires Flying(op, s, l, v, id, model) && Settled(l, l', a)
    requires !UntriedAhead(v, Count(l))
    ensures CandidateFirst(op, s, l')
  {
    SupportedPrefix(l.ranked, l.cursor);
  }

  // ---------- going on after the provider was reached ----------

  /** What is left of the budget covers one first attempt for every candidate not yet reserved, `reserved` more
      besides. */
  ghost predicate StillRoom(op: Operation, l: Ledger, v: Round, reserved: nat)
  {
    v.invocations < Budget(Count(l)) &&
    (Seed(op) == 0 ==> Budget(Count(l)) - v.invocations >= Count(l) - v.freshReserved + reserved)
  }

  lemma SkippedGrounded(op: Operation, s: Surroundings, l: Ledger, l': Ledger, v: Round, id: AttemptId, model: ModelId,
                        fault: Fault, reserved: nat)
    requires Flying(op, s, l, v, id, model) && LandsAs(op, s, l, l', id, FailedBeforeResponse)
    requires StillRoom(op, l, v, reserved) && s.reply(id).fault == fault
    ensures
      Grounded(op, s, l', v.(history := v.history + [AttemptRecord(id, TransportFault(fault), Some(model), true)]),
               reserved)
  {
    var last := Attempt(id, Some(model), true, true, Some(FailedBeforeResponse));
    var r := AttemptRecord(id, TransportFault(fault), Some(model), true);
    assert EntryOf(op.row, s, last) == [r];
    assert AfterSettling(op, s, l, v, last) == v.(history := v.history + [r]);
    Landed(op, s, l, l', v, id, model, FailedBeforeResponse);
  }

  lemma ArmedFlying(op: Operation, s: Surroundings, l: Ledger, v: Round, id: AttemptId, model: ModelId)
    requires Flying(op, s, l, v, id, model) && op.row.RetryEligible()
    ensures Flying(op, s, l, v.(armed := true), id, model)
  {
  }

  /** A rejected attempt leaves its own outcome's record, and becomes what an exhaustion would report. */
  lemma RejectionCounts(op: Operation, s: Surroundings, l: Ledger, v: Round, last: Attempt, o: Outcome)
    requires last.claimed && RejectedOnTheWay(last) && Reached(s, last)
    requires RecordedAs(op.row, s.reply(last.id), last.outcome.value) && o == RejectedOutcome(op, l, last)
    ensures
      AfterSettling(op, s, l, v, last) == v.(history := v.history + [OwnRecord(o)], lastRejected := Some(o))
  {
    assert EntryOf(op.row, s, last) == [OwnRecord(o)];
  }

  /** A rejection with the next candidate still to come. */
  lemma RejectedGrounded(op: Operation, s: Surroundings, l: Ledger, l': Ledger, v: Round, id: AttemptId, model: ModelId,
                         a: AttemptOutcome, o: Outcome)
    requires Flying(op, s, l, v, id, model) && LandsAs(op, s, l, l', id, a) && StillRoom(op, l, v, 0)
    requires a.MalformedResultPreFallback? || a.ContractFailurePreFallback?
    requires o == RejectedOutcome(op, l, Attempt(id, Some(model), true, true, Some(a)))
    ensures Grounded(op, s, l', v.(history := v.history + [OwnRecord(o)], lastRejected := Some(o)), 0)
  {
    var last := Attempt(id, Some(model), true, true, Some(a));
    Landed(op, s, l, l', v, id, model, a);
    RejectionCounts(op, s, l, v, last, o);
  }

  /** A repeat of the same candidate is reserved. */
  lemma RepeatGrounded(op: Operation, s: Surroundings, l: Ledger, l': Ledger, v: Round, v': Round, id: AttemptId)
    requires Grounded(op, s, l, v, 1) && WellLogged(l'.attempts)
    requires l.attempts != [] && Last(l.attempts) == Attempt(id, None, false, false, None) && Trail(l.attempts) != []
    requires LastBecomes(l, l', Last(l.attempts).(model := Some(Last(Trail(l.attempts)).1))) && s.attach(id)
    requires v' == v.(networkRetries := v'.networkRetries, capacityRetries := v'.capacityRetries,
                      retryIds := v.retryIds + {id}, carried := v'.carried)
    requires v'.networkRetries <= MAX_NETWORK_RETRIES && v'.capacityRetries <= MAX_CAPACITY_RETRIES
    requires v'.networkRetries + v'.capacityRetries == v.networkRetries + v.capacityRetries + 1
    ensures Grounded(op, s, l', v', 1)
  {
    Repeat(op, s, l, l', v, v', id);
    TruthSpreads(op, s, l, l');
  }
}
