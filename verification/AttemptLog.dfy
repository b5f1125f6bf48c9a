/** What a provider round can read off its session log: what every reply is recorded as, which attempts reached the
    provider, the rejection history, and the reserved attempts as a walk over the ranking. */
module AttemptLog {
  import opened Wrappers
  import opened ProviderSelection
  import opened TaskOutcome
  import opened RoundParts

  // ---------- rows and replies ----------

  datatype ResultKind = KindCompleted | KindQuestions | KindCancelled | KindFailed

  datatype Row = Row(textMode: bool, editExecution: bool, permits: set<ResultKind>, hasContentRule: bool,
                     needsLease: bool) {
    /** Only text rows, and never an edit execution, advance past a malformed result. */
    predicate RetryEligible() { textMode && !editExecution }

    predicate AsksQuestions() { KindQuestions in permits }
  }

  function KindOf(e: Envelope): ResultKind
  {
    match e
    case CompletedEnvelope(_, _) => KindCompleted
    case QuestionsEnvelope => KindQuestions
    case CancelledEnvelope(_) => KindCancelled
    case FailedEnvelope(_, _) => KindFailed
  }

  /** The result a reply carries; a usable text without any frame counts as completed content. */
  function AnswerOf(r: Reply): Option<Envelope>
  {
    match r
    case Framed(e) => Some(e)
    case Misframed(foreign, plainAnswer) =>
      if plainAnswer && !foreign then Some(CompletedEnvelope(true, true)) else None
    case _ => None
  }

  predicate BreaksContentRule(row: Row, e: Envelope)
  {
    e.CompletedEnvelope? && e.typeMatches && row.hasContentRule && !e.contractHolds
  }

  /** A result the row asked for: of a permitted kind, of its content type, and within its content rule. */
  predicate Acceptable(row: Row, e: Envelope)
  {
    KindOf(e) in row.permits && (e.CompletedEnvelope? ==> e.typeMatches) && !BreaksContentRule(row, e)
  }

  predicate Answers(row: Row, r: Reply, e: Envelope) { AnswerOf(r) == Some(e) && Acceptable(row, e) }

  /** A readable result that is not what the row asked for, and not for its content rule. */
  predicate Unusable(row: Row, r: Reply)
  {
    AnswerOf(r).Some? && !Acceptable(row, AnswerOf(r).value) && !BreaksContentRule(row, AnswerOf(r).value)
  }

  /** A text that is no result frame of this operation at all. */
  predicate BrokenFraming(r: Reply) { r.Misframed? && !r.foreignCorrelation && !r.plainAnswer }

  /** May the attempt that got this reply be recorded like this? */
  predicate RecordedAs(row: Row, r: Reply, o: AttemptOutcome)
  {
    match o
    case AttemptCompleted =>
      AnswerOf(r).Some? && AnswerOf(r).value.CompletedEnvelope? && Acceptable(row, AnswerOf(r).value)
    case AskedQuestions => Answers(row, r, QuestionsEnvelope)
    case DeclaredFailure =>
      AnswerOf(r).Some? && AnswerOf(r).value.FailedEnvelope? && Acceptable(row, AnswerOf(r).value)
    case CallerCancelled => r == Cancellation(true) || Answers(row, r, CancelledEnvelope(true))
    case ProviderCancelled => r == Cancellation(false) || Answers(row, r, CancelledEnvelope(false))
    case MalformedResult =>
      r == Unsealable(SpoolStoreMissing) || r == Unsealable(SpoolUnclaimable) || BrokenFraming(r) || Unusable(row, r)
    case MalformedResultPreFallback => BrokenFraming(r) && row.RetryEligible()
    case ContractFailure => r.Framed? && BreaksContentRule(row, r.envelope)
    case ContractFailurePreFallback => r.Framed? && BreaksContentRule(row, r.envelope) && row.RetryEligible()
    case CorrelationMismatch => r == Unsealable(ForeignSpool) || (r.Misframed? && r.foreignCorrelation)
    case Overflow => r.TooLarge?
    case FailedAfterResponse => r.TransportFailure? && r.responseStarted
    case FailedBeforeResponse => r.TransportFailure? && !r.responseStarted
    case UnavailableBeforeInvocation => false
  }

  /** The replies whose malformed result carries no stamp, whatever the row. */
  predicate Unstampable(row: Row, r: Reply)
  {
    r.TooLarge? || r == Unsealable(ForeignSpool) || Unusable(row, r)
  }

  // ---------- the rejection history ----------

  /** The failures a round remembers: the code, and whether a retry passes the candidate over. */
  function Remembered(row: Row, r: Reply): Option<(Code, bool)>
  {
    match r
    case TransportFailure(fault, responseStarted, _, _) => Some((TransportFault(fault), !responseStarted))
    case Misframed(foreign, plainAnswer) =>
      if foreign then Some((ResultCorrelationMismatch, false))
      else if plainAnswer then None
      else Some((BrokenFrame, false))
    case Framed(e) => if BreaksContentRule(row, e) then Some((ContentContractFailed, false)) else None
    case _ => None
  }

  /** Did the broker make a call for this settled attempt? */
  predicate Reached(s: Surroundings, a: Attempt)
  {
    a.invoked && a.outcome.Some? && s.prepare(a.id).Prepared?
  }

  /** What a settled attempt leaves in the history: one that was claimed and not sent failed in its setup. */
  function EntryOf(row: Row, s: Surroundings, a: Attempt): seq<AttemptRecord>
  {
    if a.outcome.None? || !a.claimed then []
    else if !a.invoked then [AttemptRecord(a.id, SetupFailed, a.model, true)]
    else if !Reached(s, a) then []
    else
      var m := Remembered(row, s.reply(a.id));
      if m.None? then [] else [AttemptRecord(a.id, m.value.0, a.model, m.value.1)]
  }

  function Entries(row: Row, s: Surroundings, attempts: seq<Attempt>): seq<AttemptRecord>
  {
    if attempts == [] then [] else Entries(row, s, attempts[..|attempts| - 1]) + EntryOf(row, s, Last(attempts))
  }

  /** The calls, in order. */
  function SentIds(s: Surroundings, attempts: seq<Attempt>): seq<AttemptId>
  {
    if attempts == [] then []
    else SentIds(s, attempts[..|attempts| - 1]) + (if Reached(s, Last(attempts)) then [Last(attempts).id] else [])
  }

  /** Rejected, with the next candidate still to come. */
  predicate RejectedOnTheWay(a: Attempt)
  {
    a.outcome.Some? && (a.outcome.value.MalformedResultPreFallback? || a.outcome.value.ContractFailurePreFallback?)
  }

  function LastRejection(attempts: seq<Attempt>): Option<Attempt>
  {
    if attempts == [] then None
    else if RejectedOnTheWay(Last(attempts)) then Some(Last(attempts))
    else LastRejection(attempts[..|attempts| - 1])
  }

  lemma {:induction false} LastRejectionIs(attempts: seq<Attempt>)
    ensures
      match LastRejection(attempts)
      case None => forall a :: a in attempts ==> !RejectedOnTheWay(a)
      case Some(a) => a in attempts && RejectedOnTheWay(a)
  {
    if attempts != [] {
      var m := |attempts| - 1;
      assert attempts == attempts[..m] + [Last(attempts)];
      LastRejectionIs(attempts[..m]);
    }
  }

  function RecordIds(h: seq<AttemptRecord>): set<AttemptId> { set r | r in h :: r.attemptId }

  lemma RecordIdsJoin(h: seq<AttemptRecord>, k: seq<AttemptRecord>)
    ensures RecordIds(h + k) == RecordIds(h) + RecordIds(k)
  {
    assert forall x :: x in h + k <==> x in h || x in k;
  }

  // ---------- the reserved attempts as a walk ----------

  /** The reserved attempts as pairs of id and model. */
  function Trail(attempts: seq<Attempt>): seq<(AttemptId, ModelId)>
  {
    if attempts == [] then []
    else
      Trail(attempts[..|attempts| - 1]) +
      (if Last(attempts).model.Some? then [(Last(attempts).id, Last(attempts).model.value)] else [])
  }

  /** Reserved for the same model as the one before it. */
  predicate IsRepeat(trail: seq<(AttemptId, ModelId)>)
  {
    |trail| > 1 && Last(trail).1 == trail[|trail| - 2].1
  }

  /** The attempts that repeat a candidate. */
  function RepeatIds(trail: seq<(AttemptId, ModelId)>): set<AttemptId>
  {
    if trail == [] then {}
    else RepeatIds(trail[..|trail| - 1]) + (if IsRepeat(trail) then {Last(trail).0} else {})
  }

  /** The reserved attempts are, in ranked order, one original for every supported candidate walked so far, each
      followed by its own repeats. */
  ghost predicate Walk(ranked: seq<Candidate>, trail: seq<(AttemptId, ModelId)>)
    decreases |ranked| + |trail|
  {
    if IsRepeat(trail) then Walk(ranked, trail[..|trail| - 1])
    else if ranked == [] then trail == []
    else if !Last(ranked).supported then Walk(ranked[..|ranked| - 1], trail)
    else
      trail != [] && Last(trail).1 == Last(ranked).model && Walk(ranked[..|ranked| - 1], trail[..|trail| - 1])
  }

  /** How many repeats of the current candidate the trail ends with. */
  function TailRepeats(trail: seq<(AttemptId, ModelId)>): nat
  {
    if IsRepeat(trail) then 1 + TailRepeats(trail[..|trail| - 1]) else 0
  }

  /** No candidate was repeated more than `limit` times. */
  predicate FewRepeats(trail: seq<(AttemptId, ModelId)>, limit: nat)
  {
    trail == [] || (TailRepeats(trail) <= limit && FewRepeats(trail[..|trail| - 1], limit))
  }

  lemma {:induction false} WalkPastUnsupported(ranked: seq<Candidate>, c: Candidate, trail: seq<(AttemptId, ModelId)>)
    requires Walk(ranked, trail) && !c.supported
    ensures Walk(ranked + [c], trail)
    decreases |trail|
  {
    assert (ranked + [c])[..|ranked + [c]| - 1] == ranked;
    if IsRepeat(trail) {
      WalkPastUnsupported(ranked, c, trail[..|trail| - 1]);
    }
  }

  /** Only ranked candidates that can serve the mode are reserved. */
  lemma {:induction false} WalkedModels(ranked: seq<Candidate>, trail: seq<(AttemptId, ModelId)>)
    requires Walk(ranked, trail)
    ensures forall x :: x in trail ==> Candidate(x.1, true) in ranked
    decreases |ranked| + |trail|
  {
    if trail != [] {
      var m := |trail| - 1;
      assert trail == trail[..m] + [Last(trail)];
      if IsRepeat(trail) {
        WalkedModels(ranked, trail[..m]);
        assert trail[m - 1] in trail[..m];
      } else if ranked != [] {
        var front := ranked[..|ranked| - 1];
        assert ranked == front + [Last(ranked)];
        WalkedModels(front, if Last(ranked).supported then trail[..m] else trail);
      }
    }
  }

  /** The next ranked candidate starts a group of its own. */
  lemma WalkToSupported(ranked: seq<Candidate>, c: Candidate, trail: seq<(AttemptId, ModelId)>, id: AttemptId)
    requires Walk(ranked, trail) && c.supported && forall d :: d in ranked ==> d.model != c.model
    ensures
      var t := trail + [(id, c.model)];
      Walk(ranked + [c], t) && RepeatIds(t) == RepeatIds(trail) && TailRepeats(t) == 0
    ensures forall limit :: FewRepeats(trail, limit) ==> FewRepeats(trail + [(id, c.model)], limit)
  {
    var t := trail + [(id, c.model)];
    assert t[..|t| - 1] == trail && Last(t) == (id, c.model);
    assert (ranked + [c])[..|ranked + [c]| - 1] == ranked;
    WalkedModels(ranked, trail);
    assert trail != [] ==> t[|t| - 2] in trail;
  }

  /** A repeat extends the current candidate's group. */
  lemma WalkToRepeat(ranked: seq<Candidate>, trail: seq<(AttemptId, ModelId)>, id: AttemptId)
    requires Walk(ranked, trail) && trail != []
    ensures
      var t := trail + [(id, Last(trail).1)];
      Walk(ranked, t) && RepeatIds(t) == RepeatIds(trail) + {id} && TailRepeats(t) == TailRepeats(trail) + 1
    ensures forall limit :: FewRepeats(trail, limit) && TailRepeats(trail) < limit ==>
              FewRepeats(trail + [(id, Last(trail).1)], limit)
  {
    var t := trail + [(id, Last(trail).1)];
    assert t[..|t| - 1] == trail && Last(t) == (id, Last(trail).1) && t[|t| - 2] == Last(trail);
  }

  /** Every supported candidate walked so far was reserved. */
  lemma {:induction false} WalkCovers(ranked: seq<Candidate>, trail: seq<(AttemptId, ModelId)>, c: Candidate)
    requires Walk(ranked, trail) && c in ranked && c.supported
    ensures exists x :: x in trail && x.1 == c.model
    decreases |ranked| + |trail|
  {
    var front := ranked[..|ranked| - 1];
    assert ranked == front + [Last(ranked)];
    if IsRepeat(trail) {
      WalkCovers(ranked, trail[..|trail| - 1], c);
      var x :| x in trail[..|trail| - 1] && x.1 == c.model;
      assert x in trail;
    } else if c == Last(ranked) {
      assert Last(trail) in trail;
    } else {
      WalkCovers(front, if Last(ranked).supported then trail[..|trail| - 1] else trail, c);
      var x :| x in trail && x.1 == c.model;
    }
  }

  /** How often a model was reserved. */
  function Times(trail: seq<(AttemptId, ModelId)>, m: ModelId): nat
  {
    if trail == [] then 0 else Times(trail[..|trail| - 1], m) + (if Last(trail).1 == m then 1 else 0)
  }

  /** No model is reserved more often than once and for its repeats, and none that is not ranked. */
  lemma {:induction false} WalkTimes(ranked: seq<Candidate>, trail: seq<(AttemptId, ModelId)>, m: ModelId, limit: nat)
    requires Walk(ranked, trail) && DistinctCandidates(ranked) && FewRepeats(trail, limit)
    ensures Times(trail, m) <= 1 + limit
    ensures trail != [] && Last(trail).1 == m ==> Times(trail, m) == 1 + TailRepeats(trail)
    ensures Candidate(m, true) !in ranked ==> Times(trail, m) == 0
    decreases |ranked| + |trail|
  {
    if trail != [] {
      var t := trail[..|trail| - 1];
      if IsRepeat(trail) {
        WalkTimes(ranked, t, m, limit);
      } else if ranked != [] {
        var front := ranked[..|ranked| - 1];
        assert ranked == front + [Last(ranked)];
        assert forall i :: 0 <= i < |front| ==> front[i].model != Last(ranked).model;
        WalkTimes(front, if Last(ranked).supported then t else trail, m, limit);
      }
    }
  }

  /** The attempts reserved for a model, in order. */
  function AttemptsOf(attempts: seq<Attempt>, m: ModelId): seq<Attempt>
  {
    if attempts == [] then []
    else AttemptsOf(attempts[..|attempts| - 1], m) + (if Last(attempts).model == Some(m) then [Last(attempts)] else [])
  }

  lemma {:induction false} TimesCountAttempts(attempts: seq<Attempt>, m: ModelId)
    ensures Times(Trail(attempts), m) == |AttemptsOf(attempts, m)|
  {
    if attempts != [] {
      var front, a := attempts[..|attempts| - 1], Last(attempts);
      TimesCountAttempts(front, m);
      if a.model.Some? {
        var t := Trail(front) + [(a.id, a.model.value)];
        assert t[..|t| - 1] == Trail(front);
      } else {
        assert Trail(attempts) == Trail(front);
      }
    }
  }

  lemma {:induction false} TrailIsOfLog(attempts: seq<Attempt>, x: (AttemptId, ModelId)) returns (a: Attempt)
    requires x in Trail(attempts)
    ensures a in attempts && a.id == x.0 && a.model == Some(x.1)
  {
    a := Last(attempts);
    if x in Trail(attempts[..|attempts| - 1]) {
      a := TrailIsOfLog(attempts[..|attempts| - 1], x);
      assert a in attempts;
    }
  }

  // ---------- how all of this follows the session's steps ----------

  lemma LogAppends(row: Row, s: Surroundings, attempts: seq<Attempt>, a: Attempt)
    requires a.outcome.None? && a.model.None?
    ensures SameStory(row, s, attempts, attempts + [a]) && Trail(attempts + [a]) == Trail(attempts)
  {
    assert (attempts + [a])[..|attempts + [a]| - 1] == attempts;
  }

  /** The open last attempt changes, and with it only the ends of these sequences. */
  lemma LogChanges(row: Row, s: Surroundings, attempts: seq<Attempt>, a: Attempt)
    requires attempts != [] && Last(attempts).outcome.None? && a.id == Last(attempts).id
    requires Last(attempts).model.Some? ==> a.model == Last(attempts).model
    ensures
      var log := WithLast(attempts, a);
      SentIds(s, log) == SentIds(s, attempts) + (if Reached(s, a) then [a.id] else []) &&
      Entries(row, s, log) == Entries(row, s, attempts) + EntryOf(row, s, a) &&
      LastRejection(log) == (if RejectedOnTheWay(a) then Some(a) else LastRejection(attempts)) &&
      Trail(log) ==
        (if a.model == Last(attempts).model then Trail(attempts) else Trail(attempts) + [(a.id, a.model.value)])
  {
    assert WithLast(attempts, a)[..|attempts| - 1] == attempts[..|attempts| - 1];
  }

  /** While it stays open, only the trail can change. */
  lemma LogMoves(row: Row, s: Surroundings, attempts: seq<Attempt>, a: Attempt)
    requires attempts != [] && Last(attempts).outcome.None? && a.id == Last(attempts).id && a.outcome.None?
    requires Last(attempts).model.Some? ==> a.model == Last(attempts).model
    ensures SameStory(row, s, attempts, WithLast(attempts, a))
    ensures
      Trail(WithLast(attempts, a)) ==
      if a.model == Last(attempts).model then Trail(attempts) else Trail(attempts) + [(a.id, a.model.value)]
  {
    LogChanges(row, s, attempts, a);
    assert SentIds(s, attempts) + [] == SentIds(s, attempts);
    assert Entries(row, s, attempts) + [] == Entries(row, s, attempts);
  }

  /** Both logs tell the same of calls, failures and rejections. */
  ghost predicate SameStory(row: Row, s: Surroundings, log: seq<Attempt>, log': seq<Attempt>)
  {
    SentIds(s, log') == SentIds(s, log) && Entries(row, s, log') == Entries(row, s, log) &&
    LastRejection(log') == LastRejection(log)
  }
}
