/** How each elementary step of a round carries the loop's books forward. */
module RoundSteps {
  import opened Wrappers
  import opened ProviderSelection
  import opened TaskOutcome
  import opened RoundParts
  import opened AttemptLog
  import opened AttemptBooks

  /** The last attempt changes, its identity does not. */
  ghost predicate LastBecomes(l: Ledger, l': Ledger, a: Attempt)
  {
    l.attempts != [] && a.id == Last(l.attempts).id && l' == l.(attempts := WithLast(l.attempts, a))
  }

  /** The last attempt gets further, for a candidate the retry rule does not pass over. */
  lemma StillPassesOver(op: Operation, l: Ledger, l': Ledger)
    requires PassesOver(op, l) && l.attempts != [] && l'.attempts != [] && l'.ranked == l.ranked
    requires l'.attempts == WithLast(l.attempts, Last(l'.attempts))
    requires
      Last(l'.attempts).claimed ==>
        (Last(l.attempts).claimed && Last(l'.attempts).model == Last(l.attempts).model) ||
        (Last(l'.attempts).model.Some? && Last(l'.attempts).model.value !in Passed(op, l))
    ensures PassesOver(op, l')
  {
    assert Last(l.attempts) in l.attempts;
  }

  lemma TalliesStay(op: Operation, s: Surroundings, l: Ledger, l': Ledger, v: Round)
    requires Tallies(op, s, l, v) && l'.ranked == l.ranked && l'.calls == l.calls
    requires SameStory(op.row, s, l.attempts, l'.attempts) && Trail(l'.attempts) == Trail(l.attempts)
    ensures Tallies(op, s, l', v)
  {
  }

  lemma Allocate(op: Operation, s: Surroundings, l: Ledger, l': Ledger, v: Round, id: AttemptId)
    requires Books(op, s, l, v, |l.calls|)
    requires l' == l.(attempts := l.attempts + [Attempt(id, None, false, false, None)], nextId := l'.nextId)
    requires LastIsPast(op, l)
    ensures Books(op, s, l', v, |l.calls|)
  {
    LogAppends(op.row, s, l.attempts, Attempt(id, None, false, false, None));
    TalliesStay(op, s, l, l', v);
  }

  /** The round's variables once its last attempt is settled: what the attempt leaves in the history, and what an
      exhaustion would now report. */
  function AfterSettling(op: Operation, s: Surroundings, l: Ledger, v: Round, a: Attempt): Round
  {
    v.(history := v.history + EntryOf(op.row, s, a),
       lastRejected := if RejectedOnTheWay(a) then Some(RejectedOutcome(op, l, a)) else v.lastRejected)
  }

  lemma SettledCalls(s: Surroundings, l: Ledger, l': Ledger, settled: nat, a: Attempt)
    requires CallsMatch(s, l, settled) && l'.calls == l.calls
    requires SentIds(s, l'.attempts) == SentIds(s, l.attempts) + (if Reached(s, a) then [a.id] else [])
    requires
      if Reached(s, a) then settled == |l.calls| - 1 && Last(l.calls) == a.id
      else settled == |l.calls|
    ensures CallsMatch(s, l', |l'.calls|)
  {
    assert l'.calls[..|l'.calls|] == l.calls[..settled] + (if Reached(s, a) then [a.id] else []);
  }

  lemma SettledTallies(op: Operation, s: Surroundings, l: Ledger, l': Ledger, v: Round, a: Attempt)
    requires Tallies(op, s, l, v) && l'.calls == l.calls && l'.ranked == l.ranked
    requires Trail(l'.attempts) == Trail(l.attempts)
    requires Entries(op.row, s, l'.attempts) == Entries(op.row, s, l.attempts) + EntryOf(op.row, s, a)
    requires LastRejection(l'.attempts) == if RejectedOnTheWay(a) then Some(a) else LastRejection(l.attempts)
    ensures Tallies(op, s, l', AfterSettling(op, s, l, v, a))
  {
    Joined(op.prior, Entries(op.row, s, l.attempts), EntryOf(op.row, s, a));
    assert forall x :: RejectedOutcome(op, l', x) == RejectedOutcome(op, l, x);
  }

  /** The last attempt is settled; a sent one was the last call. */
  lemma Settle(op: Operation, s: Surroundings, l: Ledger, l': Ledger, v: Round, settled: nat)
    requires Books(op, s, l, v, settled) && l.attempts != [] && Last(l.attempts).outcome.None?
    requires l'.attempts != [] && LastBecomes(l, l', Last(l'.attempts))
    requires Last(l'.attempts).model == Last(l.attempts).model
    requires Last(l'.attempts).claimed ==> Last(l.attempts).claimed
    requires
      if Reached(s, Last(l'.attempts)) then settled == |l.calls| - 1 && Last(l.calls) == Last(l'.attempts).id
      else settled == |l.calls|
    ensures Books(op, s, l', AfterSettling(op, s, l, v, Last(l'.attempts)), |l'.calls|)
  {
    var a := Last(l'.attempts);
    LogChanges(op.row, s, l.attempts, a);
    StillPassesOver(op, l, l');
    SettledCalls(s, l, l', settled, a);
    SettledTallies(op, s, l, l', v, a);
  }

  /** The cursor moves on by one, over a candidate that the log has no attempt for. */
  lemma SkipGroup(l: Ledger, l': Ledger)
    requires RankedWalk(l) && l.cursor < |l.ranked| && !l.ranked[l.cursor].supported
    requires l' == l.(cursor := l.cursor + 1)
    ensures RankedWalk(l')
  {
    assert l.ranked[..l.cursor + 1] == l.ranked[..l.cursor] + [l.ranked[l.cursor]];
    WalkPastUnsupported(l.ranked[..l.cursor], l.ranked[l.cursor], Trail(l.attempts));
  }

  lemma NextReserve(op: Operation, l: Ledger, l': Ledger, v: Round)
    requires l.cursor < |l.ranked| && ReservesMatch(op, l, v)
    requires l'.ranked == l.ranked && l'.cursor == l.cursor + 1
    ensures
      ReservesMatch(op, l', if l.ranked[l.cursor].supported then v.(freshReserved := v.freshReserved + 1) else v)
  {
    SupportedNext(l.ranked, l.cursor);
  }

  /** The walk goes on with the next ranked candidate, as a group of its own. */
  lemma NextGroup(l: Ledger, l': Ledger, id: AttemptId)
    requires RankedWalk(l) && l.cursor < |l.ranked| && l.ranked[l.cursor].supported
    requires l'.ranked == l.ranked && l'.cursor == l.cursor + 1
    requires Trail(l'.attempts) == Trail(l.attempts) + [(id, l.ranked[l.cursor].model)]
    ensures RankedWalk(l') && TailRepeats(Trail(l'.attempts)) == 0
    ensures RepeatIds(Trail(l'.attempts)) == RepeatIds(Trail(l.attempts))
  {
    var c := l.ranked[l.cursor];
    assert l.ranked[..l.cursor + 1] == l.ranked[..l.cursor] + [c];
    WalkToSupported(l.ranked[..l.cursor], c, Trail(l.attempts), id);
  }

  /** Selection reserves the next ranked candidate. */
  lemma ReserveRanked(op: Operation, s: Surroundings, l: Ledger, l': Ledger, v: Round, v': Round)
    requires Books(op, s, l, v, |l.calls|)
    requires l.cursor < |l.ranked| && l.ranked[l.cursor].supported
    requires l.attempts != [] && Last(l.attempts) == Attempt(Last(l.attempts).id, None, false, false, None)
    requires LastBecomes(l.(cursor := l.cursor + 1), l', Last(l.attempts).(model := Some(l.ranked[l.cursor].model)))
    requires v' == v.(networkRetries := 0, capacityRetries := 0, freshReserved := v.freshReserved + 1)
    ensures Books(op, s, l', v', |l.calls|)
  {
    LogMoves(op.row, s, l.attempts, Last(l'.attempts));
    StillPassesOver(op, l, l');
    NextGroup(l, l', Last(l'.attempts).id);
    NextReserve(op, l, l', v);
  }

  /** The provider call is made and counted, and an earlier rejected outcome's stamp follows. */
  function Restamped(v: Round, budget: nat): Round
  {
    var n := v.invocations + 1;
    v.(invocations := n,
       lastRejected :=
         if v.lastRejected.Some? && v.lastRejected.value.Malformed? && v.lastRejected.value.used.Some? then
           Some(v.lastRejected.value.(used := Some(n), budget := Some(budget)))
         else v.lastRejected)
  }

  lemma SentTallies(op: Operation, s: Surroundings, l: Ledger, l': Ledger, v: Round, id: AttemptId)
    requires Tallies(op, s, l, v) && l' == l.(calls := l.calls + [id])
    ensures Tallies(op, s, l', Restamped(v, Budget(Count(l))))
  {
  }

  lemma Send(op: Operation, s: Surroundings, l: Ledger, l': Ledger, v: Round, id: AttemptId)
    requires Books(op, s, l, v, |l.calls|) && l' == l.(calls := l.calls + [id])
    ensures Books(op, s, l', Restamped(v, Budget(Count(l))), |l.calls|)
  {
    assert l'.calls[..|l.calls|] == l.calls == l.calls[..|l.calls|];
    SentTallies(op, s, l, l', v, id);
  }

  /** The current group of the walk grows by a repeat. */
  lemma GrowGroup(l: Ledger, l': Ledger, id: AttemptId)
    requires RankedWalk(l) && Trail(l.attempts) != [] && TailRepeats(Trail(l.attempts)) < MAX_REPEATS
    requires l'.ranked == l.ranked && l'.cursor == l.cursor
    requires Trail(l'.attempts) == Trail(l.attempts) + [(id, Last(Trail(l.attempts)).1)]
    ensures RankedWalk(l') && TailRepeats(Trail(l'.attempts)) == TailRepeats(Trail(l.attempts)) + 1
    ensures RepeatIds(Trail(l'.attempts)) == RepeatIds(Trail(l.attempts)) + {id}
  {
    WalkToRepeat(l.ranked[..l.cursor], Trail(l.attempts), id);
  }

  /** A repeat of the same candidate: the new attempt is reserved for the model of the last one. */
  lemma Repeat(op: Operation, s: Surroundings, l: Ledger, l': Ledger, v: Round, v': Round, id: AttemptId)
    requires Books(op, s, l, v, |l.calls|)
    requires l.attempts != [] && Last(l.attempts) == Attempt(id, None, false, false, None) && Trail(l.attempts) != []
    requires LastBecomes(l, l', Last(l.attempts).(model := Some(Last(Trail(l.attempts)).1)))
    requires v' == v.(networkRetries := v'.networkRetries, capacityRetries := v'.capacityRetries,
                      retryIds := v.retryIds + {id}, carried := v'.carried)
    requires v'.networkRetries <= MAX_NETWORK_RETRIES && v'.capacityRetries <= MAX_CAPACITY_RETRIES
    requires v'.networkRetries + v'.capacityRetries == v.networkRetries + v.capacityRetries + 1
    ensures Books(op, s, l', v', |l.calls|)
  {
    LogMoves(op.row, s, l.attempts, Last(l'.attempts));
    StillPassesOver(op, l, l');
    GrowGroup(l, l', id);
  }
}
