/** `retryOnMalformedResultV1` (src/actions/productionTaskActionRuntimeV1.ts): one user press runs fresh operations
    while the last one came back malformed, handing each the calls already spent and the attempts already made. */
module MalformedRetry {
  import opened Wrappers
  import opened ProviderSelection
  import opened TaskOutcome
  import opened RoundParts
  import opened AttemptLog
  import opened AttemptBooks
  import opened ProviderRow
  import opened Coordinator
  import opened RoundResults

  /** One fresh operation of the press: what it was seeded with, its candidate count, its calls, the reply to the last
      one, and its outcome. */
  datatype Try = Try(seed: Option<nat>, prior: seq<AttemptRecord>, candidates: nat, calls: seq<AttemptId>,
                     lastReply: Option<Reply>, outcome: Outcome) {
    predicate Stamped() { outcome.Malformed? && outcome.used.Some? }

    function Spent(): nat { if seed.Some? then seed.value else 0 }

    /** Was the last call's reply one whose malformed result nobody stamps? */
    predicate EndedUnstampable(row: Row) { lastReply.Some? && Unstampable(row, lastReply.value) }
  }

  // ---------- what one operation promises ----------

  /** At most the calls its seed leaves; a malformed result was paid for by a call, its stamp counts the calls of the
      press, and with a name it gives the press's history back; for rows whose results are retried the last reply alone
      decides whether there is a stamp. */
  ghost predicate Kept(row: Row, t: Try)
  {
    |t.calls| <= Max(1, if Budget(t.candidates) > t.Spent() then Budget(t.candidates) - t.Spent() else 0) &&
    KeptStamp(row, t) && (t.outcome.Malformed? && t.outcome.attemptId.Some? ==> KeptHistory(t))
  }

  ghost predicate KeptStamp(row: Row, t: Try)
  {
    (t.calls == [] ==> t.lastReply.None?) && (t.outcome.Malformed? ==> t.calls != []) &&
    (t.Stamped() ==>
      t.outcome.used == Some(t.Spent() + |t.calls|) && t.outcome.budget == Some(Budget(t.candidates)) &&
      row.RetryEligible()) &&
    (row.RetryEligible() ==> (t.outcome.Malformed? && !t.Stamped() <==> t.EndedUnstampable(row)))
  }

  ghost predicate KeptHistory(t: Try)
  {
    var h := HistoryOf(t.outcome);
    h.Some? && t.prior <= h.value && |h.value| > |t.prior| && forall id :: id in t.calls ==> id in RecordIds(h.value)
  }

  function TryOf(op: Operation, s: Surroundings, candidates: nat, calls: seq<AttemptId>, o: Outcome): Try
  {
    Try(op.seed, op.prior, candidates, calls, if calls == [] then None else Some(s.reply(Last(calls))), o)
  }

  lemma NamedKeepsHistory(op: Operation, s: Surroundings, l: Ledger, switchedOff: seq<ModelId>, o: Outcome)
    requires Finished(op, s, l, switchedOff, o) && Last(l.attempts).outcome.Some?
    requires o.Malformed? && o.attemptId.Some?
    ensures KeptHistory(TryOf(op, s, Count(l), l.calls, o))
  {
    MalformedGivesHistoryBack(op, s, l, switchedOff, o);
    assert op.prior <= History(op, s, l);
  }

  /** A round's stamp, as its own results say it. */
  ghost predicate StampFits(op: Operation, s: Surroundings, l: Ledger, o: Outcome)
  {
    (o.Malformed? ==> l.calls != []) &&
    (o.Malformed? && o.used.Some? ==>
      o.used == Some(Seed(op) + |l.calls|) && o.budget == Some(Budget(Count(l))) && op.row.RetryEligible()) &&
    (op.row.RetryEligible() ==>
      (o.Malformed? && o.used.None? <==> l.calls != [] && Unstampable(op.row, s.reply(Last(l.calls)))))
  }

  lemma FinishedStampFits(op: Operation, s: Surroundings, l: Ledger, switchedOff: seq<ModelId>, o: Outcome)
    requires Finished(op, s, l, switchedOff, o) && Last(l.attempts).outcome.Some?
    ensures StampFits(op, s, l, o)
  {
    if op.row.RetryEligible() {
      UnstampedByLastCall(op, s, l, switchedOff, o);
    }
    if o.Malformed? {
      StampsCountCalls(op, s, l, switchedOff, o);
    }
  }

  lemma StampIsKept(op: Operation, s: Surroundings, l: Ledger, o: Outcome)
    requires StampFits(op, s, l, o)
    ensures KeptStamp(op.row, TryOf(op, s, Count(l), l.calls, o))
  {
  }

  /** Every finished round keeps that promise. */
  lemma RoundKeeps(op: Operation, s: Surroundings, l: Ledger, switchedOff: seq<ModelId>, o: Outcome)
    requires Finished(op, s, l, switchedOff, o) && Last(l.attempts).outcome.Some?
    ensures Kept(op.row, TryOf(op, s, Count(l), l.calls, o))
  {
    FinishedStampFits(op, s, l, switchedOff, o);
    StampIsKept(op, s, l, o);
    if o.Malformed? && o.attemptId.Some? {
      NamedKeepsHistory(op, s, l, switchedOff, o);
    }
  }

  // ---------- the loop, as a property of its operations ----------

  /** `sharedInvocationsUsedV1` after these operations. */
  function Shared(tries: seq<Try>): Option<nat>
  {
    if tries == [] then None
    else if |tries| == 1 then (if tries[0].outcome.Malformed? then tries[0].outcome.used else None)
    else
      var before := Shared(tries[..|tries| - 1]);
      if before.Some? && Last(tries).Stamped() then Last(tries).outcome.used else before
  }

  predicate WantsRetry(row: Row, maxAttempts: nat, tries: seq<Try>)
  {
    tries != [] && Last(tries).outcome.Malformed? && !row.editExecution &&
    match Shared(tries)
    case None => |tries| < maxAttempts
    case Some(used) =>
      used < Max(FLOOR, if Last(tries).outcome.budget.Some? then Last(tries).outcome.budget.value else 0)
  }

  /** What the next operation is seeded with. */
  function NextSeed(tries: seq<Try>): Option<nat>
  {
    if Shared(tries).Some? && Shared(tries).value > 0 then Shared(tries) else None
  }

  function NextPrior(tries: seq<Try>): seq<AttemptRecord>
    requires tries != []
  {
    var h := HistoryOf(Last(tries).outcome);
    if h.Some? then h.value else []
  }

  /** These operations are what the loop runs. */
  ghost predicate PressOf(row: Row, maxAttempts: nat, tries: seq<Try>)
  {
    if |tries| <= 1 then tries == [] || (tries[0].seed.None? && tries[0].prior == [])
    else
      var front := tries[..|tries| - 1];
      PressOf(row, maxAttempts, front) && WantsRetry(row, maxAttempts, front) &&
      Last(tries).seed == NextSeed(front) && Last(tries).prior == NextPrior(front)
  }

  ghost predicate AllKept(row: Row, tries: seq<Try>, candidates: nat)
  {
    forall i :: 0 <= i < |tries| ==> Kept(row, tries[i]) && tries[i].candidates <= candidates
  }

  function Total(tries: seq<Try>): nat
  {
    if tries == [] then 0 else Total(tries[..|tries| - 1]) + |Last(tries).calls|
  }

  /** Calls of operations whose result carried no stamp. */
  function UnstampedCalls(tries: seq<Try>): nat
  {
    if tries == [] then 0
    else UnstampedCalls(tries[..|tries| - 1]) + (if Last(tries).Stamped() then 0 else |Last(tries).calls|)
  }

  /** The last result with a stamp. */
  ghost predicate LastStamp(tries: seq<Try>, k: nat)
  {
    k < |tries| && tries[k].outcome.Malformed? && tries[k].outcome.used.Some? &&
    forall j :: k < j < |tries| ==> !(tries[j].outcome.Malformed? && tries[j].outcome.used.Some?)
  }

  /** The running count is the last stamp, if the first operation's result has one; else there is none. */
  lemma {:induction false} SharedIsLastStamp(tries: seq<Try>) returns (k: nat)
    requires tries != []
    ensures !tries[0].Stamped() ==> Shared(tries).None?
    ensures tries[0].Stamped() ==> LastStamp(tries, k) && Shared(tries) == tries[k].outcome.used
  {
    var m := |tries| - 1;
    k := m;
    if |tries| > 1 {
      k := SharedIsLastStamp(tries[..m]);
      if tries[m].Stamped() {
        k := m;
      }
    }
  }

  /** When the loop asks for another operation, by its results: not after an edit execution, and not after a result that
      is not malformed; below `maxAttempts` operations while the first result has no stamp, and else while the last
      stamp is below the larger of three and the last result's budget. */
  lemma WantsRetryMeans(row: Row, maxAttempts: nat, tries: seq<Try>) returns (stamp: nat)
    requires tries != []
    ensures tries[0].Stamped() ==> LastStamp(tries, stamp)
    ensures
      var first, last := tries[0].outcome, tries[|tries| - 1].outcome;
      WantsRetry(row, maxAttempts, tries) <==>
      !row.editExecution && last.Malformed? &&
      if !first.Malformed? || first.used.None? then |tries| < maxAttempts
      else
        tries[stamp].outcome.used.value < 3 ||
        (last.budget.Some? && tries[stamp].outcome.used.value < last.budget.value)
  {
    stamp := SharedIsLastStamp(tries);
  }

  lemma OnceForEdits(row: Row, maxAttempts: nat, tries: seq<Try>)
    requires tries != [] && PressOf(row, maxAttempts, tries) && row.editExecution
    ensures |tries| == 1
  {
  }

  // ---------- the shared budget ----------

  /** The running count misses exactly the calls of unstamped results. */
  lemma {:induction false} SharedCountsStampedCalls(row: Row, maxAttempts: nat, tries: seq<Try>, candidates: nat)
    requires tries != [] && PressOf(row, maxAttempts, tries) && AllKept(row, tries, candidates)
    requires Last(tries).outcome.Malformed? && tries[0].Stamped()
    ensures Shared(tries).Some? && Shared(tries).value > 0
    ensures Total(tries) == Shared(tries).value + UnstampedCalls(tries)
  {
    var front := tries[..|tries| - 1];
    assert Kept(row, Last(tries));
    if |tries| == 1 {
      assert front == [];
    } else {
      SharedCountsStampedCalls(row, maxAttempts, front, candidates);
    }
  }

  /** A whole press makes at most `max(3, candidateCount)` provider calls, not counting those of unstamped results
      before its last operation. */
  lemma PressWithinBudget(row: Row, maxAttempts: nat, tries: seq<Try>, candidates: nat)
    requires tries != [] && PressOf(row, maxAttempts, tries) && AllKept(row, tries, candidates)
    requires |tries| == 1 || tries[0].Stamped()
    ensures Total(tries) <= Max(FLOOR, candidates) + UnstampedCalls(tries[..|tries| - 1])
  {
    var front := tries[..|tries| - 1];
    assert Kept(row, Last(tries));
    if |tries| == 1 {
      assert front == [];
    } else {
      SharedCountsStampedCalls(row, maxAttempts, front, candidates);
      assert Last(front) == tries[|tries| - 2];
      assert Kept(row, Last(front));
    }
  }

  lemma {:induction false} AllStampedMissNothing(tries: seq<Try>)
    requires forall i :: 0 <= i < |tries| ==> tries[i].Stamped()
    ensures UnstampedCalls(tries) == 0
  {
    if tries != [] {
      AllStampedMissNothing(tries[..|tries| - 1]);
    }
  }

  /** With every result but the last stamped, the bound is exactly the shared one. */
  lemma StampedPressWithinBudget(row: Row, maxAttempts: nat, tries: seq<Try>, candidates: nat)
    requires tries != [] && PressOf(row, maxAttempts, tries) && AllKept(row, tries, candidates)
    requires forall i :: 0 <= i < |tries| - 1 ==> tries[i].Stamped()
    ensures Total(tries) <= Max(FLOOR, candidates)
  {
    AllStampedMissNothing(tries[..|tries| - 1]);
    PressWithinBudget(row, maxAttempts, tries, candidates);
  }

  lemma {:induction false} EveryTryCalls(row: Row, tries: seq<Try>, candidates: nat)
    requires AllKept(row, tries, candidates) && (forall i :: 0 <= i < |tries| ==> tries[i].outcome.Malformed?)
    ensures |tries| <= Total(tries)
  {
    if tries != [] {
      assert Kept(row, Last(tries));
      EveryTryCalls(row, tries[..|tries| - 1], candidates);
    }
  }

  /** So such a press ends: after `max(3, candidateCount)` stamped results it asks for no further operation. */
  lemma StampedPressEnds(row: Row, maxAttempts: nat, tries: seq<Try>, candidates: nat)
    requires tries != [] && PressOf(row, maxAttempts, tries) && AllKept(row, tries, candidates)
    requires forall i :: 0 <= i < |tries| ==> tries[i].Stamped()
    ensures |tries| <= Max(FLOOR, candidates)
    ensures |tries| == Max(FLOOR, candidates) ==> !WantsRetry(row, maxAttempts, tries)
  {
    StampedPressWithinBudget(row, maxAttempts, tries, candidates);
    EveryTryCalls(row, tries, candidates);
    SharedCountsStampedCalls(row, maxAttempts, tries, candidates);
    AllStampedMissNothing(tries);
    assert Kept(row, Last(tries));
  }

  /** One more malformed result brings the loop nearer its end exactly when its operation's last reply was none of
      those that nobody stamps. */
  lemma ProgressExactlyWhenStampable(row: Row, maxAttempts: nat, tries: seq<Try>, candidates: nat)
    requires |tries| > 1 && PressOf(row, maxAttempts, tries) && AllKept(row, tries, candidates) && row.RetryEligible()
    requires Last(tries).outcome.Malformed? && !tries[0].EndedUnstampable(row)
    ensures
      var before, after := Shared(tries[..|tries| - 1]), Shared(tries);
      before.Some? && after.Some? && after.value >= before.value &&
      (after.value > before.value <==> !Last(tries).EndedUnstampable(row))
  {
    var front := tries[..|tries| - 1];
    assert Kept(row, Last(tries)) && Kept(row, tries[0]);
    FirstIsMalformed(row, maxAttempts, tries);
    SharedCountsStampedCalls(row, maxAttempts, front, candidates);
  }

  /** Every operation but the last one of a press came back malformed. */
  lemma {:induction false} FirstIsMalformed(row: Row, maxAttempts: nat, tries: seq<Try>)
    requires PressOf(row, maxAttempts, tries)
    ensures forall i :: 0 <= i < |tries| - 1 ==> tries[i].outcome.Malformed?
  {
    if |tries| > 1 {
      var front := tries[..|tries| - 1];
      FirstIsMalformed(row, maxAttempts, front);
      assert forall i :: 0 <= i < |front| ==> tries[i] == front[i];
      assert Last(front) == tries[|tries| - 2];
    }
  }

  /** A press whose first result is unstamped runs at most `maxAttempts` operations, none of them seeded. */
  lemma {:induction false} UnstampedPressIsBounded(row: Row, maxAttempts: nat, tries: seq<Try>)
    requires tries != [] && PressOf(row, maxAttempts, tries) && !tries[0].Stamped()
    ensures Shared(tries).None? && |tries| <= Max(1, maxAttempts)
    ensures forall i :: 0 <= i < |tries| ==> tries[i].seed.None?
  {
    if |tries| > 1 {
      var front := tries[..|tries| - 1];
      UnstampedPressIsBounded(row, maxAttempts, front);
      assert forall i :: 0 <= i < |front| ==> tries[i] == front[i];
    }
  }

  lemma {:induction false} EveryTryIsBounded(row: Row, tries: seq<Try>, candidates: nat)
    requires AllKept(row, tries, candidates) && forall i :: 0 <= i < |tries| ==> tries[i].seed.None?
    ensures Total(tries) <= |tries| * Max(FLOOR, candidates)
  {
    if tries != [] {
      var front := tries[..|tries| - 1];
      assert Kept(row, Last(tries)) && |Last(tries).calls| <= Max(FLOOR, candidates);
      EveryTryIsBounded(row, front, candidates);
      assert |tries| * Max(FLOOR, candidates) == |front| * Max(FLOOR, candidates) + Max(FLOOR, candidates);
    }
  }

  /** The calls of such a press: the budget for each of its operations, since none of them counts the others' calls. */
  lemma UnstampedPressCalls(row: Row, maxAttempts: nat, tries: seq<Try>, candidates: nat)
    requires tries != [] && PressOf(row, maxAttempts, tries) && AllKept(row, tries, candidates)
    requires !tries[0].Stamped()
    ensures Total(tries) <= (if maxAttempts > 1 then maxAttempts else 1) * (if candidates > 3 then candidates else 3)
  {
    UnstampedPressIsBounded(row, maxAttempts, tries);
    EveryTryIsBounded(row, tries, candidates);
    Scaled(|tries|, Max(1, maxAttempts), Max(FLOOR, candidates));
  }

  lemma Scaled(a: nat, b: nat, factor: nat)
    requires a <= b
    ensures a * factor <= b * factor
  {
  }

  // ---------- presses without an end ----------

  /** The first `n` operations of a press that goes on for ever. */
  ghost function FirstOf(press: nat -> Try, n: nat): (tries: seq<Try>)
    ensures |tries| == n && forall i :: 0 <= i < n ==> tries[i] == press(i)
  {
    seq(n, i requires 0 <= i < n => press(i))
  }

  /** After `n` operations, each of which kept its promises, the loop asks for another one. */
  ghost predicate GoesOnAfter(row: Row, maxAttempts: nat, press: nat -> Try, candidates: nat, n: nat)
  {
    var tries := FirstOf(press, n);
    PressOf(row, maxAttempts, tries) && AllKept(row, tries, candidates) && WantsRetry(row, maxAttempts, tries)
  }

  ghost predicate NeverEnds(row: Row, maxAttempts: nat, press: nat -> Try, candidates: nat)
  {
    forall n: nat :: n > 0 ==> GoesOnAfter(row, maxAttempts, press, candidates, n)
  }

  /** The running count after `n` operations. */
  ghost function CountAfter(press: nat -> Try, n: nat): nat
  {
    var shared := Shared(FirstOf(press, n));
    if shared.Some? then shared.value else 0
  }

  lemma FirstIsStamped(row: Row, maxAttempts: nat, press: nat -> Try, candidates: nat)
    requires NeverEnds(row, maxAttempts, press, candidates)
    ensures press(0).Stamped() && row.RetryEligible()
  {
    var n := Max(1, maxAttempts) + 1;
    var tries := FirstOf(press, n);
    assert GoesOnAfter(row, maxAttempts, press, candidates, n);
    assert Kept(row, tries[0]) && tries[0] == press(0);
    if !press(0).Stamped() {
      UnstampedPressIsBounded(row, maxAttempts, tries);
    }
  }

  /** The running count, which such a press has from its first operation on, never exceeds the budget. */
  lemma CountStaysBelow(row: Row, maxAttempts: nat, press: nat -> Try, candidates: nat, n: nat)
    requires NeverEnds(row, maxAttempts, press, candidates) && n > 0
    ensures Shared(FirstOf(press, n)).Some? && CountAfter(press, n) <= Max(FLOOR, candidates)
  {
    var tries := FirstOf(press, n);
    FirstIsStamped(row, maxAttempts, press, candidates);
    assert GoesOnAfter(row, maxAttempts, press, candidates, n);
    SharedCountsStampedCalls(row, maxAttempts, tries, candidates);
    PressWithinBudget(row, maxAttempts, tries, candidates);
  }

  /** A result that can be stamped raises it, any other leaves it as it is. */
  lemma CountRises(row: Row, maxAttempts: nat, press: nat -> Try, candidates: nat, n: nat)
    requires NeverEnds(row, maxAttempts, press, candidates) && n > 0
    ensures CountAfter(press, n + 1) >= CountAfter(press, n)
    ensures CountAfter(press, n + 1) > CountAfter(press, n) <==> !press(n).EndedUnstampable(row)
  {
    var tries := FirstOf(press, n + 1);
    assert tries[..n] == FirstOf(press, n);
    FirstIsStamped(row, maxAttempts, press, candidates);
    assert GoesOnAfter(row, maxAttempts, press, candidates, n + 1);
    assert Kept(row, tries[0]) && tries[0] == press(0);
    ProgressExactlyWhenStampable(row, maxAttempts, tries, candidates);
  }

  lemma {:induction false} CountGrows(row: Row, maxAttempts: nat, press: nat -> Try, candidates: nat, m: nat, n: nat)
    requires NeverEnds(row, maxAttempts, press, candidates) && 0 < m <= n
    ensures CountAfter(press, m) <= CountAfter(press, n)
    decreases n - m
  {
    if m < n {
      CountRises(row, maxAttempts, press, candidates, m);
      CountGrows(row, maxAttempts, press, candidates, m + 1, n);
    }
  }

  lemma {:induction false} EndlessFrom(row: Row, maxAttempts: nat, press: nat -> Try, candidates: nat, start: nat)
    returns (n: nat)
    requires NeverEnds(row, maxAttempts, press, candidates) && start > 0
    ensures forall i :: i >= n ==> press(i).EndedUnstampable(row)
    decreases Max(FLOOR, candidates) - CountAfter(press, start)
  {
    n := start;
    if i :| i >= start && !press(i).EndedUnstampable(row) {
      CountGrows(row, maxAttempts, press, candidates, start, i);
      CountRises(row, maxAttempts, press, candidates, i);
      CountStaysBelow(row, maxAttempts, press, candidates, i + 1);
      n := EndlessFrom(row, maxAttempts, press, candidates, i + 1);
    }
  }

  /** A press that never ends is one whose first result is stamped, and from some operation on every last reply is one
      that nobody stamps. */
  lemma EndlessPressIsUnstampable(row: Row, maxAttempts: nat, press: nat -> Try, candidates: nat) returns (n: nat)
    requires NeverEnds(row, maxAttempts, press, candidates)
    ensures press(0).Stamped() && row.RetryEligible() && forall i :: i >= n ==> press(i).EndedUnstampable(row)
  {
    FirstIsStamped(row, maxAttempts, press, candidates);
    n := EndlessFrom(row, maxAttempts, press, candidates, 1);
  }

  // ---------- no attempt is lost ----------

  /** While the results name their attempts, each operation's history extends the last one's, and every provider call
      of the press is in it. */
  lemma {:induction false} NoCallIsLost(row: Row, maxAttempts: nat, tries: seq<Try>, candidates: nat, i: nat)
    requires i < |tries| && PressOf(row, maxAttempts, tries) && AllKept(row, tries, candidates)
    requires forall k :: 0 <= k < |tries| ==> tries[k].Stamped() && tries[k].outcome.attemptId.Some?
    ensures HistoryOf(tries[i].outcome).Some? && HistoryOf(Last(tries).outcome).Some?
    ensures HistoryOf(tries[i].outcome).value <= HistoryOf(Last(tries).outcome).value
    ensures i < |tries| - 1 ==> |HistoryOf(tries[i].outcome).value| < |HistoryOf(Last(tries).outcome).value|
    ensures forall id :: id in tries[i].calls ==> id in RecordIds(HistoryOf(Last(tries).outcome).value)
  {
    assert Kept(row, Last(tries)) && Kept(row, tries[i]);
    if i < |tries| - 1 {
      var front := tries[..|tries| - 1];
      NoCallIsLost(row, maxAttempts, front, candidates, i);
      assert front[i] == tries[i];
      var h, last := HistoryOf(Last(front).outcome).value, HistoryOf(Last(tries).outcome).value;
      assert h <= last;
      forall r | r in h
        ensures r in last
      {
        var k :| 0 <= k < |h| && h[k] == r;
        assert last[k] == r;
      }
      assert RecordIds(h) <= RecordIds(last);
    }
  }

  // ---------- one real operation ----------

  /** What one fresh operation of the press meets; its ranking names no model twice. */
  datatype OperationWorld = OperationWorld(s: Surroundings, ranked: seq<Candidate>, switchedOff: seq<ModelId>,
                                           earlier: Earlier, startLeaseFree: bool, discards: bool)

  function RequestIn(r: Request, w: OperationWorld): Request
  {
    r.(earlier := w.earlier, startLeaseFree := w.startLeaseFree)
  }

  ghost predicate RanIn(row: Row, w: OperationWorld, t: Try)
  {
    Kept(row, t) && t.candidates == SupportedCount(w.ranked) &&
    (t.calls != [] ==> t.lastReply == Some(w.s.reply(Last(t.calls))))
  }

  /** Nothing but its providers decides how this operation ends, and there is a candidate. */
  ghost predicate Smooth(r: Request, w: OperationWorld)
  {
    EarlyRefusal(r).None? && (r.row.needsLease ==> w.startLeaseFree) && w.earlier.NothingBefore? && Works(w.s) &&
    SupportedCount(w.ranked) > 0
  }

  /** Besides, the row's results are retried, no provider lets the round go on, and no candidate has to be skipped. */
  ghost predicate Lone(r: Request, w: OperationWorld)
  {
    Smooth(r, w) && EndsAtOnce(r.row, w.s) && r.row.RetryEligible() && NothingSkipped(r.prior)
  }

  predicate NothingSkipped(h: seq<AttemptRecord>)
  {
    forall r :: r in h ==> !r.skipOnRetry
  }

  /** A result frame of another operation. */
  predicate ForeignFrame(r: Reply) { r.Misframed? && r.foreignCorrelation }

  /** One call, and a malformed result: without a stamp or history, or stamped with one call more than was spent. */
  ghost predicate LoneCall(row: Row, w: OperationWorld, t: Try)
  {
    |t.calls| == 1 &&
    (Unstampable(row, w.s.reply(t.calls[0])) ==>
      t.outcome.Malformed? && !t.Stamped() && HistoryOf(t.outcome).None?) &&
    (ForeignFrame(w.s.reply(t.calls[0])) ==>
      t.Stamped() && t.outcome.used == Some(t.Spent() + 1) &&
      HistoryOf(t.outcome).Some? && NothingSkipped(HistoryOf(t.outcome).value))
  }

  /** Such an operation is admitted. */
  lemma AdmissionGoesThrough(r: Request, w: OperationWorld, p: Parts, o: Outcome)
    requires Smooth(r, w) && EndsAtOnce(r.row, w.s) && r.lifecycle.None?
    requires OpenCandidate(OperationOf(r), w.ranked) && p.selection.ranked == w.ranked
    ensures !SettledInAdmission(RequestIn(r, w), w.s, p, Absent, o)
  {
    var op := OperationOf(r);
    if OverUnsent(op, w.s, p, o) && p.broker.calls == [] {
      OneCallEnds(op, w.s, View(p), p.selection.switchedOff, o);
    }
  }

  lemma PlainResult(op: Operation, s: Surroundings, l: Ledger, switchedOff: seq<ModelId>, o: Outcome)
    requires Finished(op, s, l, switchedOff, o) && l.attempts != [] && Reached(s, Last(l.attempts))
    requires Unstampable(op.row, s.reply(Last(l.attempts).id))
    ensures o.Malformed? && o.used.None? && HistoryOf(o).None?
  {
    UnstampableIsMalformed(op, s, l, switchedOff, o);
    MalformedGivesHistoryBack(op, s, l, switchedOff, o);
  }

  lemma ForeignIsMalformed(op: Operation, s: Surroundings, l: Ledger, switchedOff: seq<ModelId>, o: Outcome)
    requires LogIsTrue(op, s, l) && l.attempts != [] && SettlesAs(op, s, l, switchedOff, o)
    requires Reached(s, Last(l.attempts)) && ForeignFrame(s.reply(Last(l.attempts).id)) && op.row.RetryEligible()
    ensures o.Malformed? && o.used == Some(Seed(op) + |l.calls|) && o.attemptId == Some(Last(l.attempts).id)
  {
    var last := Last(l.attempts);
    assert TrueTo(op, s, Count(l), last) by {
      assert last in l.attempts;
    }
    AttachKeepsReport(Stamped(op, l, last.id, last.model, ResultCorrelationMismatch), History(op, s, l));
  }

  lemma ForeignResult(op: Operation, s: Surroundings, l: Ledger, switchedOff: seq<ModelId>, o: Outcome)
    requires Finished(op, s, l, switchedOff, o) && op.row.RetryEligible() && NothingSkipped(op.prior)
    requires Works(s) && !op.resumed && EndsAtOnce(op.row, s) && OpenCandidate(op, l.ranked)
    requires l.attempts != [] && Reached(s, Last(l.attempts)) && ForeignFrame(s.reply(Last(l.attempts).id))
    ensures o.Malformed? && o.used == Some(Seed(op) + |l.calls|)
    ensures HistoryOf(o).Some? && NothingSkipped(HistoryOf(o).value)
  {
    ForeignIsMalformed(op, s, l, switchedOff, o);
    MalformedGivesHistoryBack(op, s, l, switchedOff, o);
    OneCallHistory(op, s, l);
  }

  /** It makes one call, and its result is what the reply to that call makes it. */
  lemma LoneCallOf(r: Request, w: OperationWorld, l: Ledger, o: Outcome)
    requires Lone(r, w) && l.ranked == w.ranked
    requires OpenCandidate(OperationOf(r), w.ranked) && Finished(OperationOf(r), w.s, l, w.switchedOff, o)
    ensures LoneCall(r.row, w, TryOf(OperationOf(r), w.s, Count(l), l.calls, o))
  {
    var op := OperationOf(r);
    OneCallEnds(op, w.s, l, w.switchedOff, o);
    var reply := w.s.reply(Last(l.attempts).id);
    if Unstampable(r.row, reply) {
      PlainResult(op, w.s, l, w.switchedOff, o);
    }
    if ForeignFrame(reply) {
      ForeignResult(op, w.s, l, w.switchedOff, o);
    }
  }

  /** One fresh operation: newly opened parts, one whole execution. */
  method RunFresh(c: TaskActions, r: Request, w: OperationWorld, target: Target, firstId: AttemptId)
    returns (t: Try, nextId: AttemptId)
    requires c.Valid() && r.lifecycle.None? && DistinctCandidates(w.ranked)
    modifies c, target
    ensures c.Valid() && c.audit == old(c.audit) + [t.outcome] && c.open == old(c.open)
    ensures c.begun - old(c.begun) == c.ended - old(c.ended)
    ensures c.followUps == old(c.followUps) + FollowUpOf(t.outcome, r.followUp, |old(c.audit)|)
    ensures t.seed == r.seed && t.prior == r.prior && RanIn(r.row, w, t)
    ensures Lone(r, w) ==> LoneCall(r.row, w, t)
    ensures |target.promoted| <= |old(target.promoted)| + 1
    ensures target.promoted != old(target.promoted) ==> t.outcome.Completed?
  {
    var session := new Session(firstId, None);
    var selection := new Selection(w.ranked, w.switchedOff);
    var record := new InvocationRecord();
    var broker := new Broker();
    var lease := new LeasePhases();
    var p := Parts(session, selection, record, broker, lease, target);
    var o, settleTried := c.ExecuteAction(RequestIn(r, w), w.s, p, w.discards);
    t := TryOf(OperationOf(r), w.s, SupportedCount(w.ranked), broker.calls, o);
    nextId := session.nextId;
    ExecutionKept(r, w, p, o, settleTried);
  }

  lemma ExecutionKept(r: Request, w: OperationWorld, p: Parts, o: Outcome, settleTried: bool)
    requires p.selection.ranked == w.ranked && p.selection.switchedOff == w.switchedOff
    requires r.lifecycle.None? && DistinctCandidates(w.ranked)
    requires
      (p.broker.calls == [] && SettledInAdmission(RequestIn(r, w), w.s, p, Absent, o)) ||
      RoundSettled(OperationOf(r), w.s, p, o, settleTried, w.discards)
    ensures
      var t := TryOf(OperationOf(r), w.s, SupportedCount(w.ranked), p.broker.calls, o);
      RanIn(r.row, w, t) && (Lone(r, w) ==> LoneCall(r.row, w, t))
  {
    var op := OperationOf(r);
    if Lone(r, w) {
      OpenUnlessSkipped(op, w.ranked);
      AdmissionGoesThrough(r, w, p, o);
    }
    if p.broker.calls == [] && SettledInAdmission(RequestIn(r, w), w.s, p, Absent, o) {
      AdmissionKept(r, w, p, o);
    } else if Last(p.session.attempts).outcome.Some? {
      RoundKeeps(op, w.s, View(p), w.switchedOff, o);
      if Lone(r, w) {
        LoneCallOf(r, w, View(p), o);
      }
    } else {
      LastCallDecides(op, w.s, View(p));
    }
  }

  /** An execution that ended inside admission made no call and is not malformed. */
  lemma AdmissionKept(r: Request, w: OperationWorld, p: Parts, o: Outcome)
    requires r.lifecycle.None? && p.broker.calls == [] && SettledInAdmission(RequestIn(r, w), w.s, p, Absent, o)
    ensures !o.Malformed?
  {
    if o.Malformed? && OverUnsent(OperationOf(r), w.s, p, o) {
      StampsCountCalls(OperationOf(r), w.s, View(p), p.selection.switchedOff, o);
    }
  }

  // ---------- the loop over real operations ----------

  /** Every operation ran in its own world and kept its promises. */
  ghost predicate AllRun(row: Row, worlds: nat -> OperationWorld, tries: seq<Try>)
  {
    forall i :: 0 <= i < |tries| ==> RanIn(row, worlds(i), tries[i])
  }

  function Outcomes(tries: seq<Try>): seq<Outcome>
  {
    if tries == [] then [] else Outcomes(tries[..|tries| - 1]) + [Last(tries).outcome]
  }

  lemma PressGrows(row: Row, maxAttempts: nat, tries: seq<Try>, t: Try)
    requires tries != [] && PressOf(row, maxAttempts, tries) && WantsRetry(row, maxAttempts, tries)
    requires t.seed == NextSeed(tries) && t.prior == NextPrior(tries)
    ensures PressOf(row, maxAttempts, tries + [t]) && Outcomes(tries + [t]) == Outcomes(tries) + [t.outcome]
    ensures Total(tries + [t]) == Total(tries) + |t.calls|
    ensures Shared(tries + [t]) == if Shared(tries).Some? && t.Stamped() then t.outcome.used else Shared(tries)
  {
    assert (tries + [t])[..|tries + [t]| - 1] == tries;
  }

  lemma AppendTry(row: Row, worlds: nat -> OperationWorld, tries: seq<Try>, t: Try)
    requires AllRun(row, worlds, tries) && RanIn(row, worlds(|tries|), t)
    ensures AllRun(row, worlds, tries + [t])
  {
  }

  lemma FirstTry(row: Row, maxAttempts: nat, worlds: nat -> OperationWorld, t: Try)
    requires t.seed.None? && t.prior == [] && RanIn(row, worlds(0), t)
    ensures PressOf(row, maxAttempts, [t]) && AllRun(row, worlds, [t]) && Outcomes([t]) == [t.outcome]
    ensures Shared([t]) == if t.outcome.Malformed? then t.outcome.used else None
  {
    assert [t][..0] == [];
  }

  /** The operations so far are a press of the loop, each with its promises; `shared` is its running count, and `wants`
      says whether it asks for another one. */
  ghost predicate InPress(row: Row, maxAttempts: nat, worlds: nat -> OperationWorld, tries: seq<Try>,
                          shared: Option<nat>, wants: bool)
  {
    tries != [] && PressOf(row, maxAttempts, tries) && AllRun(row, worlds, tries) && shared == Shared(tries) &&
    wants == WantsRetry(row, maxAttempts, tries)
  }

  // ---------- worlds in which the loop has no end ----------

  ghost predicate Registered(worlds: nat -> OperationWorld)
  {
    forall i: nat :: DistinctCandidates(worlds(i).ranked)
  }

  /** The replies of the first operation are results of another operation; from then on no reply can be stamped. */
  ghost predicate RepliesOf(row: Row, worlds: nat -> OperationWorld, i: nat)
  {
    forall id: AttemptId ::
      if i == 0 then ForeignFrame(worlds(i).s.reply(id)) else Unstampable(row, worlds(i).s.reply(id))
  }

  ghost predicate Endless(r: Request, worlds: nat -> OperationWorld)
  {
    r.row.RetryEligible() && forall i: nat :: Smooth(r, worlds(i)) && RepliesOf(r.row, worlds, i)
  }

  /** The running count stands at one, and the next operation skips nothing. */
  ghost predicate Going(tries: seq<Try>)
  {
    tries != [] && Last(tries).outcome.Malformed? && Shared(tries) == Some(1) && NothingSkipped(NextPrior(tries))
  }

  lemma EndlessIsLone(r: Request, worlds: nat -> OperationWorld, i: nat, seed: Option<nat>, prior: seq<AttemptRecord>)
    requires Endless(r, worlds) && NothingSkipped(prior)
    ensures Lone(r.(seed := seed, prior := prior), worlds(i))
  {
    assert Smooth(r, worlds(i)) && RepliesOf(r.row, worlds, i);
    forall id, a | RecordedAs(r.row, worlds(i).s.reply(id), a)
      ensures !FallbackEligible(a)
    {
      if FallbackEligible(a) {
        FallbackIsRemembered(r.row, worlds(i).s.reply(id), a);
      }
    }
  }

  lemma StaysGoing(row: Row, maxAttempts: nat, w: OperationWorld, tries: seq<Try>, t: Try)
    requires Going(tries) && LoneCall(row, w, t) && Unstampable(row, w.s.reply(t.calls[0])) && row.RetryEligible()
    ensures Going(tries + [t]) && WantsRetry(row, maxAttempts, tries + [t])
  {
    assert (tries + [t])[..|tries + [t]| - 1] == tries;
  }

  /** Such worlds exist for every row whose results are retried: one candidate, and results that are too large. */
  function EndlessWorld(i: nat): OperationWorld
  {
    var reply := if i == 0 then Misframed(true, false) else TooLarge;
    OperationWorld(
      Surroundings(_ => true, _ => true, _ => true, _ => WriteFate.Lands, _ => true, _ => Prepared, Proceed, _ => reply,
                   _ => true, _ => WriteFate.Lands, _ => true, _ => true, _ => false),
      [Candidate("m", true)], [], NothingBefore, true, true)
  }

  lemma EndlessWorldsExist(r: Request)
    requires EarlyRefusal(r).None? && r.row.RetryEligible()
    ensures Registered(EndlessWorld) && Endless(r, EndlessWorld)
  {
    assert [Candidate("m", true)][..0] == [];
    forall i: nat
      ensures Smooth(r, EndlessWorld(i)) && RepliesOf(r.row, EndlessWorld, i)
    {
      assert SupportedCount(EndlessWorld(i).ranked) == 1;
    }
  }

  // ---------- the loop ----------

  /** The loop: `rounds` bounds how many operations are looked at, since without stamps it need not end; `done` says
      that it did. */
  method RunPress(c: TaskActions, r: Request, worlds: nat -> OperationWorld, maxAttempts: nat, target: Target,
                  firstId: AttemptId, rounds: nat)
    returns (tries: seq<Try>, done: bool)
    requires c.Valid() && r.lifecycle.None? && r.seed.None? && r.prior == [] && rounds > 0 && Registered(worlds)
    modifies c, target
    ensures c.Valid() && c.audit == old(c.audit) + Outcomes(tries)
    ensures 1 <= |tries| <= rounds && PressOf(r.row, maxAttempts, tries) && AllRun(r.row, worlds, tries)
    ensures done <==> !WantsRetry(r.row, maxAttempts, tries)
    ensures !done ==> |tries| == rounds
    ensures Endless(r, worlds) ==> !done
    ensures |target.promoted| <= |old(target.promoted)| + 1
    ensures target.promoted != old(target.promoted) ==> Last(tries).outcome.Completed?
  {
    var t, shared, wants, nextId := RunFirst(c, r, worlds, maxAttempts, target, firstId);
    tries := [t];
    while wants && |tries| < rounds
      invariant InPress(r.row, maxAttempts, worlds, tries, shared, wants) && |tries| <= rounds
      invariant Endless(r, worlds) ==> Going(tries) && wants
      invariant c.Valid() && c.audit == old(c.audit) + Outcomes(tries)
      invariant target.promoted == old(target.promoted) ||
        (Last(tries).outcome.Completed? && |target.promoted| <= |old(target.promoted)| + 1)
      decreases rounds - |tries|
    {
      t, shared, wants, nextId := RunAgain(c, r, worlds, maxAttempts, tries, shared, target, nextId);
      Joined(old(c.audit), Outcomes(tries), [t.outcome]);
      tries := tries + [t];
    }
    done := !wants;
  }

  /** The retry loop. `rounds` bounds how many operations are looked at, since without stamps the loop need not end;
      `done` says that it did. In endless worlds it never does, however long one looks. */
  method RetryOnMalformed(c: TaskActions, r: Request, worlds: nat -> OperationWorld, maxAttempts: nat, target: Target,
                          firstId: AttemptId, rounds: nat)
    returns (tries: seq<Try>, done: bool, ghost stamp: nat)
    requires c.Valid() && r.lifecycle.None? && r.seed.None? && r.prior == [] && rounds > 0 && Registered(worlds)
    modifies c, target
    ensures c.Valid() && c.audit == old(c.audit) + Outcomes(tries)
    ensures 1 <= |tries| <= rounds && PressOf(r.row, maxAttempts, tries) && AllRun(r.row, worlds, tries)
    ensures done <==> !WantsRetry(r.row, maxAttempts, tries)
    ensures !done ==> |tries| == rounds
    // an edit execution is never run again
    ensures r.row.editExecution ==> done && |tries| == 1
    // anything else is, after a malformed result: below `maxAttempts` operations while the first result has no stamp,
    // and else while the last stamp is below the larger of three and the last result's budget
    ensures
      var first, last := tries[0].outcome, tries[|tries| - 1].outcome;
      !done <==>
      !r.row.editExecution && last.Malformed? &&
      if !first.Malformed? || first.used.None? then |tries| < maxAttempts
      else
        stamp < |tries| && tries[stamp].outcome.Malformed? && tries[stamp].outcome.used.Some? &&
        (forall j :: stamp < j < |tries| ==> !(tries[j].outcome.Malformed? && tries[j].outcome.used.Some?)) &&
        (tries[stamp].outcome.used.value < 3 ||
         (last.budget.Some? && tries[stamp].outcome.used.value < last.budget.value))
    ensures
      tries[0].outcome.Malformed? && tries[0].outcome.used.Some? ==>
        stamp < |tries| && tries[stamp].outcome.Malformed? && tries[stamp].outcome.used.Some? &&
        forall j :: stamp < j < |tries| ==> !(tries[j].outcome.Malformed? && tries[j].outcome.used.Some?)
    ensures Endless(r, worlds) ==> !done
    ensures |target.promoted| <= |old(target.promoted)| + 1
    ensures target.promoted != old(target.promoted) ==> Last(tries).outcome.Completed?
  {
    tries, done := RunPress(c, r, worlds, maxAttempts, target, firstId, rounds);
    stamp := WantsRetryMeans(r.row, maxAttempts, tries);
    if r.row.editExecution {
      OnceForEdits(r.row, maxAttempts, tries);
    }
  }

  /** The first operation of a press, unseeded. */
  method RunFirst(c: TaskActions, r: Request, worlds: nat -> OperationWorld, maxAttempts: nat, target: Target,
                  firstId: AttemptId)
    returns (t: Try, shared: Option<nat>, wants: bool, nextId: AttemptId)
    requires c.Valid() && r.lifecycle.None? && r.seed.None? && r.prior == [] && Registered(worlds)
    modifies c, target
    ensures c.Valid() && c.audit == old(c.audit) + Outcomes([t])
    ensures InPress(r.row, maxAttempts, worlds, [t], shared, wants)
    ensures Endless(r, worlds) ==> Going([t]) && wants
    ensures |target.promoted| <= |old(target.promoted)| + 1
    ensures target.promoted != old(target.promoted) ==> t.outcome.Completed?
  {
    t, nextId := RunFresh(c, r, worlds(0), target, firstId);
    FirstTry(r.row, maxAttempts, worlds, t);
    shared := if t.outcome.Malformed? then t.outcome.used else None;
    wants := WantsRetry(r.row, maxAttempts, [t]);
    if Endless(r, worlds) {
      EndlessIsLone(r, worlds, 0, r.seed, r.prior);
      assert RepliesOf(r.row, worlds, 0);
    }
  }

  /** One more fresh operation, and what it makes of the running count. */
  method RunAgain(c: TaskActions, r: Request, worlds: nat -> OperationWorld, maxAttempts: nat, tries: seq<Try>,
                  shared: Option<nat>, target: Target, firstId: AttemptId)
    returns (t: Try, shared': Option<nat>, wants: bool, nextId: AttemptId)
    requires c.Valid() && r.lifecycle.None? && InPress(r.row, maxAttempts, worlds, tries, shared, true)
    requires Registered(worlds) && (Endless(r, worlds) ==> Going(tries))
    modifies c, target
    ensures c.Valid() && c.audit == old(c.audit) + [t.outcome]
    ensures InPress(r.row, maxAttempts, worlds, tries + [t], shared', wants)
    ensures Outcomes(tries + [t]) == Outcomes(tries) + [t.outcome]
    ensures Endless(r, worlds) ==> Going(tries + [t]) && wants
    ensures |target.promoted| <= |old(target.promoted)| + 1
    ensures target.promoted != old(target.promoted) ==> t.outcome.Completed?
  {
    t, nextId := RunNext(c, r, worlds(|tries|), maxAttempts, tries, shared, target, firstId);
    PressGrows(r.row, maxAttempts, tries, t);
    AppendTry(r.row, worlds, tries, t);
    shared' := if t.outcome.Malformed? && shared.Some? && t.outcome.used.Some? then t.outcome.used else shared;
    wants := WantsRetry(r.row, maxAttempts, tries + [t]);
    if Endless(r, worlds) {
      EndlessIsLone(r, worlds, |tries|, t.seed, t.prior);
      assert RepliesOf(r.row, worlds, |tries|);
      StaysGoing(r.row, maxAttempts, worlds(|tries|), tries, t);
    }
  }

  method RunNext(c: TaskActions, r: Request, w: OperationWorld, maxAttempts: nat, tries: seq<Try>, shared: Option<nat>,
                 target: Target, firstId: AttemptId)
    returns (t: Try, nextId: AttemptId)
    requires c.Valid() && r.lifecycle.None? && tries != [] && shared == Shared(tries) && DistinctCandidates(w.ranked)
    modifies c, target
    ensures c.Valid() && c.audit == old(c.audit) + [t.outcome]
    ensures t.seed == NextSeed(tries) && t.prior == NextPrior(tries)
    ensures RanIn(r.row, w, t) && (Lone(r.(seed := t.seed, prior := t.prior), w) ==> LoneCall(r.row, w, t))
    ensures |target.promoted| <= |old(target.promoted)| + 1
    ensures target.promoted != old(target.promoted) ==> t.outcome.Completed?
  {
    var seed := if shared.Some? && shared.value > 0 then shared else None;
    t, nextId := RunFresh(c, r.(seed := seed, prior := NextPrior(tries)), w, target, firstId);
  }

  lemma StampedByReply(row: Row, maxAttempts: nat, worlds: nat -> OperationWorld, tries: seq<Try>)
    requires PressOf(row, maxAttempts, tries) && AllRun(row, worlds, tries) && row.RetryEligible()
    ensures forall i :: 0 <= i < |tries| - 1 ==> (tries[i].Stamped() <==> !tries[i].EndedUnstampable(row))
  {
    FirstIsMalformed(row, maxAttempts, tries);
    forall i | 0 <= i < |tries| - 1
      ensures tries[i].Stamped() <==> !tries[i].EndedUnstampable(row)
    {
      assert RanIn(row, worlds(i), tries[i]);
    }
  }

  /** So a whole press through the coordinator, whatever every provider does: when no operation but the last ended on a
      reply that nobody stamps, it makes at most `max(3, candidateCount)` provider calls; and when the first did not, at
      most that and the calls of those that did. */
  lemma PressKeepsTheSharedBudget(row: Row, maxAttempts: nat, worlds: nat -> OperationWorld, tries: seq<Try>,
                                  candidates: nat)
    requires tries != [] && PressOf(row, maxAttempts, tries) && AllRun(row, worlds, tries) && row.RetryEligible()
    requires forall i :: 0 <= i < |tries| ==> SupportedCount(worlds(i).ranked) <= candidates
    ensures (forall i :: 0 <= i < |tries| - 1 ==> !tries[i].EndedUnstampable(row)) ==>
      Total(tries) <= if candidates > 3 then candidates else 3
    ensures |tries| == 1 || !tries[0].EndedUnstampable(row) ==>
      Total(tries) <= (if candidates > 3 then candidates else 3) + UnstampedCalls(tries[..|tries| - 1])
  {
    assert AllKept(row, tries, candidates);
    StampedByReply(row, maxAttempts, worlds, tries);
    if |tries| == 1 || tries[0].Stamped() {
      PressWithinBudget(row, maxAttempts, tries, candidates);
    }
    if forall i :: 0 <= i < |tries| - 1 ==> tries[i].Stamped() {
      StampedPressWithinBudget(row, maxAttempts, tries, candidates);
    }
  }
}
