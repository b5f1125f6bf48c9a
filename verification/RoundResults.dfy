/** What follows for every round that returned: when a malformed result is stamped, which attempts its outcome lists,
    how often a candidate is tried, and when one call is all there is. */
module RoundResults {
  import opened Wrappers
  import opened ProviderSelection
  import opened TaskOutcome
  import opened RoundParts
  import opened AttemptLog
  import opened AttemptBooks

  // ---------- reports of an exhaustion ----------

  /** A malformed report of an exhaustion is the rejected result itself, with its history. */
  lemma ReportOfRejection(rejected: Outcome, h: seq<AttemptRecord>)
    requires h != [] && (rejected.Malformed? || rejected.Failed?)
    ensures
      var o := RejectionReport(rejected, h);
      (o.Malformed? || o.Failed?) && (o.Malformed? ==> o == rejected.(prior := o.prior))
  {
    AttachKeepsReport(rejected, h);
    var latest := Last(h);
    AttachKeepsReport(Failed(latest.code, true, Some(latest.attemptId), latest.model, []), h);
  }

  lemma RejectedIsReport(op: Operation, l: Ledger)
    requires LastRejected(op, l).Some?
    ensures LastRejected(op, l).value.Malformed? || LastRejected(op, l).value.Failed?
  {
  }

  /** What a sent attempt settles as never carries a chain. */
  lemma SentReportsNoChain(op: Operation, s: Surroundings, l: Ledger, switchedOff: seq<ModelId>, o: Outcome)
    requires l.attempts != [] && SettlesAs(op, s, l, switchedOff, o) && Last(l.attempts).outcome.Some?
    requires Last(l.attempts).outcome != Some(UnavailableBeforeInvocation) && o.Unavailable?
    ensures o.chain.None?
  {
    var last := Last(l.attempts);
    var id, model, reply, h := last.id, last.model, s.reply(last.id), History(op, s, l);
    match last.outcome.value
    case ContractFailure => AttachKeepsReport(BrokenContract(id, model), h);
    case CorrelationMismatch => AttachKeepsReport(Stamped(op, l, id, model, ResultCorrelationMismatch), h);
    case MalformedResult => AttachKeepsReport(Stamped(op, l, id, model, BrokenFrame), h);
    case FailedAfterResponse => AttachKeepsReport(TransportEnding(reply, id, model), h);
    case FailedBeforeResponse => AttachKeepsReport(TransportEnding(reply, id, model), h);
    case _ =>
  }

  lemma RejectionReportsNoChain(rejected: Outcome, h: seq<AttemptRecord>)
    requires h != [] && (rejected.Malformed? || rejected.Failed?)
    ensures !RejectionReport(rejected, h).Unavailable?
  {
    ReportOfRejection(rejected, h);
  }

  /** Only an exhaustion reports a chain. */
  lemma ChainIsReported(op: Operation, s: Surroundings, l: Ledger, switchedOff: seq<ModelId>, o: Outcome)
    requires l.attempts != [] && SettlesAs(op, s, l, switchedOff, o) && Last(l.attempts).outcome.Some?
    requires o.Unavailable? && o.chain.Some?
    ensures ChainReport(l, switchedOff, s.quota, o) && (Count(l) > 0 ==> l.cursor == |l.ranked|)
  {
    var h := History(op, s, l);
    if Last(l.attempts).outcome != Some(UnavailableBeforeInvocation) {
      SentReportsNoChain(op, s, l, switchedOff, o);
    } else if LastRejected(op, l).Some? && h != [] {
      RejectedIsReport(op, l);
      RejectionReportsNoChain(LastRejected(op, l).value, h);
    }
  }

  // ---------- the calls are in the history ----------

  /** A settled attempt after which the round went on left a record, if it was sent. */
  ghost predicate Recorded(row: Row, s: Surroundings, attempts: seq<Attempt>)
  {
    forall a :: a in attempts && Reached(s, a) ==> EntryOf(row, s, a) != []
  }

  lemma {:induction false} CallsAreRecorded(row: Row, s: Surroundings, attempts: seq<Attempt>)
    requires Recorded(row, s, attempts)
    ensures forall id :: id in SentIds(s, attempts) ==> id in RecordIds(Entries(row, s, attempts))
  {
    if attempts != [] {
      var front, a := attempts[..|attempts| - 1], Last(attempts);
      assert forall x :: x in front ==> x in attempts;
      CallsAreRecorded(row, s, front);
      RecordIdsJoin(Entries(row, s, front), EntryOf(row, s, a));
      assert a in attempts;
      if Reached(s, a) {
        assert EntryOf(row, s, a)[0] in EntryOf(row, s, a);
      }
    }
  }

  lemma FallenBackIsRecorded(op: Operation, s: Surroundings, l: Ledger)
    requires WellLogged(l.attempts) && LogIsTrue(op, s, l) && l.attempts != []
    ensures Recorded(op.row, s, l.attempts[..|l.attempts| - 1])
  {
    var front := l.attempts[..|l.attempts| - 1];
    forall a | a in front && Reached(s, a)
      ensures EntryOf(op.row, s, a) != []
    {
      var i :| 0 <= i < |front| && front[i] == a;
      assert a == l.attempts[i] && TrueTo(op, s, Count(l), a);
      FallbackIsRemembered(op.row, s.reply(a.id), a.outcome.value);
    }
  }

  lemma FallbackIsRemembered(row: Row, r: Reply, a: AttemptOutcome)
    requires RecordedAs(row, r, a) && FallbackEligible(a)
    ensures Remembered(row, r).Some? && !Unstampable(row, r)
  {
  }

  /** Does the round's last failure, or the rejection it reports, go into the history? */
  ghost predicate CarriesHistory(op: Operation, s: Surroundings, l: Ledger)
    requires l.attempts != []
  {
    var last := Last(l.attempts);
    if Reached(s, last) then Remembered(op.row, s.reply(last.id)).Some?
    else last.outcome.Some? && last.model.None? && s.attach(last.id) && LastRejected(op, l).Some?
  }

  lemma LastIsRecorded(op: Operation, s: Surroundings, l: Ledger)
    requires WellLogged(l.attempts) && l.attempts != [] && CarriesHistory(op, s, l)
    ensures Reached(s, Last(l.attempts)) ==> EntryOf(op.row, s, Last(l.attempts)) != []
  {
  }

  /** Every provider call of such a round is in the history. */
  lemma CallsAreInHistory(op: Operation, s: Surroundings, l: Ledger)
    requires WellLogged(l.attempts) && LogIsTrue(op, s, l) && CallsMatch(s, l, |l.calls|)
    requires l.attempts != [] && CarriesHistory(op, s, l)
    ensures forall id :: id in l.calls ==> id in RecordIds(Entries(op.row, s, l.attempts))
    ensures forall id :: id in l.calls ==> id in RecordIds(History(op, s, l))
  {
    FallenBackIsRecorded(op, s, l);
    LastIsRecorded(op, s, l);
    assert l.attempts == l.attempts[..|l.attempts| - 1] + [Last(l.attempts)];
    CallsAreRecorded(op.row, s, l.attempts);
    assert l.calls == l.calls[..|l.calls|];
    RecordIdsJoin(op.prior, Entries(op.row, s, l.attempts));
  }

  // ---------- the history is in the outcome ----------

  /** The report of a failure of the last attempt. */
  function FailureReport(op: Operation, s: Surroundings, l: Ledger, last: Attempt): Outcome
  {
    var r := s.reply(last.id);
    match r
    case TransportFailure(_, _, _, _) => TransportEnding(r, last.id, last.model)
    case Framed(_) => BrokenContract(last.id, last.model)
    case Misframed(foreign, _) =>
      Stamped(op, l, last.id, last.model, if foreign then ResultCorrelationMismatch else BrokenFrame)
    case _ => Cancelled(false)
  }

  lemma ReachedAttaches(op: Operation, s: Surroundings, l: Ledger, switchedOff: seq<ModelId>, o: Outcome)
    requires l.attempts != [] && SettlesAs(op, s, l, switchedOff, o) && Reached(s, Last(l.attempts))
    requires RecordedAs(op.row, s.reply(Last(l.attempts).id), Last(l.attempts).outcome.value)
    requires Remembered(op.row, s.reply(Last(l.attempts).id)).Some?
    ensures
      var report, h := FailureReport(op, s, l, Last(l.attempts)), History(op, s, l);
      (report.Failed? || report.Malformed?) && report.prior == [] &&
      (o == AttachHistory(report, h) || (o == report && |h| <= 1))
  {
  }

  /** The outcome of such a round is a report without history, and the history attached to it, unless the history is
      this one failure alone. */
  lemma HistoryIsAttached(op: Operation, s: Surroundings, l: Ledger, switchedOff: seq<ModelId>, o: Outcome)
    returns (report: Outcome)
    requires WellLogged(l.attempts) && LogIsTrue(op, s, l) && l.attempts != []
    requires SettlesAs(op, s, l, switchedOff, o) && CarriesHistory(op, s, l)
    ensures (report.Failed? || report.Malformed?) && report.prior == []
    ensures
      var h := History(op, s, l);
      o == AttachHistory(report, h) || (o == report && |h| <= 1 && Reached(s, Last(l.attempts)))
  {
    var last, h := Last(l.attempts), History(op, s, l);
    assert TrueTo(op, s, Count(l), last) by {
      assert last in l.attempts;
    }
    if !Reached(s, last) {
      var rejected := LastRejected(op, l).value;
      report :=
        if Last(h).skipOnRetry && rejected.Malformed? && rejected.attemptId != Some(Last(h).attemptId) then
          Failed(Last(h).code, true, Some(Last(h).attemptId), Last(h).model, [])
        else rejected;
    } else {
      ReachedAttaches(op, s, l, switchedOff, o);
      report := FailureReport(op, s, l, last);
    }
  }

  lemma AttachedListsOthers(report: Outcome, h: seq<AttemptRecord>)
    requires (report.Failed? || report.Malformed?) && report.prior == []
    ensures AttachHistory(report, h).attemptId == report.attemptId
    ensures forall r :: r in h && report.attemptId != Some(r.attemptId) ==> r in AttachHistory(report, h).prior
  {
    forall r | r in h && report.attemptId != Some(r.attemptId)
      ensures r in AttachHistory(report, h).prior
    {
      OthersStayPrior(report, h, r);
    }
  }

  lemma RecordOf(h: seq<AttemptRecord>, id: AttemptId) returns (r: AttemptRecord)
    requires id in RecordIds(h)
    ensures r in h && r.attemptId == id
  {
    r :| r in h && r.attemptId == id;
  }

  /** With a single record in the history, that of the last attempt, no other attempt was sent. */
  lemma LoneFailure(op: Operation, s: Surroundings, l: Ledger, id: AttemptId)
    requires WellLogged(l.attempts) && LogIsTrue(op, s, l) && CallsMatch(s, l, |l.calls|)
    requires l.attempts != [] && CarriesHistory(op, s, l) && Reached(s, Last(l.attempts))
    requires |History(op, s, l)| <= 1 && id in l.calls
    ensures id == Last(l.attempts).id && op.prior == []
  {
    CallsAreInHistory(op, s, l);
    LastIsRecorded(op, s, l);
    var last := Last(l.attempts);
    assert Entries(op.row, s, l.attempts) == EntryOf(op.row, s, last);
    var r := RecordOf(EntryOf(op.row, s, last), id);
  }

  /** A failed or rejected ending loses no attempt: every provider call of the round, and every attempt of the press
      before it, is listed with the outcome, unless it is the attempt that the outcome itself reports. */
  lemma NoCallIsUnlisted(op: Operation, s: Surroundings, l: Ledger, switchedOff: seq<ModelId>, o: Outcome)
    requires Finished(op, s, l, switchedOff, o) && CarriesHistory(op, s, l)
    ensures o.Failed? || o.Malformed?
    ensures forall id :: id in l.calls ==>
      id in RecordIds(o.prior) || o.attemptId == Some(id) || (|History(op, s, l)| <= 1 && id == Last(l.attempts).id)
    ensures forall r :: r in op.prior ==> r in o.prior || o.attemptId == Some(r.attemptId)
  {
    var h := History(op, s, l);
    var report := HistoryIsAttached(op, s, l, switchedOff, o);
    CallsAreInHistory(op, s, l);
    AttachedListsOthers(report, h);
    if o != AttachHistory(report, h) {
      forall id | id in l.calls
        ensures id == Last(l.attempts).id
      {
        LoneFailure(op, s, l, id);
      }
      LastIsRecorded(op, s, l);
      assert h == op.prior + Entries(op.row, s, l.attempts);
    } else {
      forall id | id in l.calls && o.attemptId != Some(id)
        ensures id in RecordIds(o.prior)
      {
        var r := RecordOf(h, id);
      }
    }
  }

  // ---------- a malformed result ----------

  /** A true attempt after which the round went on. */
  predicate FellBack(op: Operation, s: Surroundings, candidateCount: nat, a: Attempt)
  {
    TrueTo(op, s, candidateCount, a) && a.outcome.Some? && FallbackEligible(a.outcome.value) &&
    (a.invoked ==> a.claimed)
  }

  /** A rejected one left the record of its outcome; another one left nothing, or a failure before any response. */
  lemma FallbackEntry(op: Operation, s: Surroundings, l: Ledger, a: Attempt)
    requires FellBack(op, s, Count(l), a)
    ensures
      var e := EntryOf(op.row, s, a);
      if RejectedOnTheWay(a) then e == [OwnRecord(RejectedOutcome(op, l, a))]
      else e == [] || (|e| == 1 && e[0].skipOnRetry && e[0].attemptId == a.id)
  {
  }

  /** Of the attempts that fell back, all that came after the last rejection failed before any response. */
  lemma {:induction false} LatestEntry(op: Operation, s: Surroundings, l: Ledger, attempts: seq<Attempt>, a: Attempt)
    requires forall x :: x in attempts ==> FellBack(op, s, Count(l), x)
    requires forall i, j :: 0 <= i < j < |attempts| ==> attempts[i].id != attempts[j].id
    requires LastRejection(attempts) == Some(a)
    ensures LatestIs(Entries(op.row, s, attempts), OwnRecord(RejectedOutcome(op, l, a))) && a in attempts
  {
    var front, last := attempts[..|attempts| - 1], Last(attempts);
    assert attempts == front + [last];
    FallbackEntry(op, s, l, last);
    if !RejectedOnTheWay(last) {
      LatestEntry(op, s, l, front, a);
      assert a.id != last.id by {
        var i :| 0 <= i < |front| && front[i] == a;
        assert attempts[i].id != attempts[|front|].id;
      }
    }
  }

  /** The latest record is this one, or a failure of another attempt before any response. */
  predicate LatestIs(h: seq<AttemptRecord>, own: AttemptRecord)
  {
    h != [] && (Last(h) == own || (Last(h).skipOnRetry && Last(h).attemptId != own.attemptId))
  }

  /** Nothing is left, and the log ends with the attempt that found this out. */
  lemma LatestOfExhausted(op: Operation, s: Surroundings, l: Ledger, a: Attempt)
    requires WellLogged(l.attempts) && LogIsTrue(op, s, l) && l.attempts != []
    requires Last(l.attempts).outcome == Some(UnavailableBeforeInvocation) && LastRejection(l.attempts) == Some(a)
    ensures LatestIs(History(op, s, l), OwnRecord(RejectedOutcome(op, l, a)))
    ensures |History(op, s, l)| > |op.prior|
  {
    forall x | x in l.attempts
      ensures FellBack(op, s, Count(l), x)
    {
      var i :| 0 <= i < |l.attempts| && l.attempts[i] == x;
    }
    LatestEntry(op, s, l, l.attempts, a);
  }

  lemma RejectedIsReached(op: Operation, s: Surroundings, l: Ledger, a: Attempt)
    requires WellLogged(l.attempts) && LogIsTrue(op, s, l) && CallsMatch(s, l, |l.calls|)
    requires LastRejection(l.attempts) == Some(a)
    ensures l.calls != [] && op.row.RetryEligible()
  {
    LastRejectionIs(l.attempts);
    assert TrueTo(op, s, Count(l), a);
    ReachedIsCalled(s, l.attempts, a);
    assert l.calls == l.calls[..|l.calls|];
  }

  lemma {:induction false} ReachedIsCalled(s: Surroundings, attempts: seq<Attempt>, a: Attempt)
    requires a in attempts && Reached(s, a)
    ensures a.id in SentIds(s, attempts)
  {
    if a != Last(attempts) {
      assert attempts == attempts[..|attempts| - 1] + [Last(attempts)];
      ReachedIsCalled(s, attempts[..|attempts| - 1], a);
    }
  }

  /** After an exhaustion: a malformed report is the last rejection, and the latest entry. */
  lemma ExhaustedGivesHistoryBack(op: Operation, s: Surroundings, l: Ledger, o: Outcome)
    requires WellLogged(l.attempts) && LogIsTrue(op, s, l) && l.attempts != [] && LastRejected(op, l).Some?
    requires Last(l.attempts).outcome == Some(UnavailableBeforeInvocation)
    requires History(op, s, l) != [] && o == RejectionReport(LastRejected(op, l).value, History(op, s, l))
    requires o.Malformed?
    ensures
      var h := History(op, s, l);
      o.attemptId == Some(Last(h).attemptId) && HistoryOf(o) == Some(h) && |h| > |op.prior|
  {
    var a := LastRejection(l.attempts).value;
    LatestOfExhausted(op, s, l, a);
    LatestGivesHistoryBack(RejectedOutcome(op, l, a), History(op, s, l));
  }

  /** So does a malformed result of the last attempt itself. */
  lemma StampedGivesHistoryBack(op: Operation, s: Surroundings, l: Ledger, code: Code)
    requires l.attempts != [] && Reached(s, Last(l.attempts)) && Last(l.attempts).claimed
    requires Remembered(op.row, s.reply(Last(l.attempts).id)) == Some((code, false))
    ensures
      var h, last := History(op, s, l), Last(l.attempts);
      var o := AttachHistory(Stamped(op, l, last.id, last.model, code), h);
      o.attemptId == Some(last.id) && Last(h).attemptId == last.id && HistoryOf(o) == Some(h) && |h| > |op.prior|
  {
    var h, last := History(op, s, l), Last(l.attempts);
    var m := Stamped(op, l, last.id, last.model, code);
    assert EntryOf(op.row, s, last) == [OwnRecord(m)];
    assert Last(h) == OwnRecord(m);
    LatestGivesHistoryBack(m, h);
  }

  /** The rejected result of an exhaustion, a plain one for a reply that cannot be stamped, or the last attempt's. */
  ghost predicate FromLog(op: Operation, s: Surroundings, l: Ledger, o: Outcome)
    requires l.attempts != [] && o.Malformed?
  {
    var last, h := Last(l.attempts), History(op, s, l);
    var r := s.reply(last.id);
    if !Reached(s, last) then
      last.outcome == Some(UnavailableBeforeInvocation) && LastRejected(op, l).Some? && h != [] &&
      o == RejectionReport(LastRejected(op, l).value, h)
    else if Unstampable(op.row, r) then o.attemptId.None? && o.used.None? && o.prior == []
    else
      var m := Remembered(op.row, r);
      m.Some? && !m.value.1 && o == AttachHistory(Stamped(op, l, last.id, last.model, m.value.0), h)
  }

  /** Where a malformed outcome can come from. */
  lemma MalformedCases(op: Operation, s: Surroundings, l: Ledger, switchedOff: seq<ModelId>, o: Outcome)
    requires LogIsTrue(op, s, l) && WellLogged(l.attempts) && l.attempts != []
    requires SettlesAs(op, s, l, switchedOff, o) && Last(l.attempts).outcome.Some? && o.Malformed?
    ensures FromLog(op, s, l, o) && (!Reached(s, Last(l.attempts)) ==> CarriesHistory(op, s, l))
  {
    assert TrueTo(op, s, Count(l), Last(l.attempts)) by {
      assert Last(l.attempts) in l.attempts;
    }
  }

  /** A malformed result that names its attempt gives the whole history of the press back, record for record, that
      attempt last, every call in it; one that does not name it carries nothing. */
  lemma MalformedGivesHistoryBack(op: Operation, s: Surroundings, l: Ledger, switchedOff: seq<ModelId>, o: Outcome)
    requires Finished(op, s, l, switchedOff, o) && Last(l.attempts).outcome.Some? && o.Malformed?
    ensures
      var h := History(op, s, l);
      if o.attemptId.None? then HistoryOf(o).None?
      else
        HistoryOf(o) == Some(h) && |h| > |op.prior| && Last(h).attemptId == o.attemptId.value &&
        forall id :: id in l.calls ==> id in RecordIds(h)
  {
    var last := Last(l.attempts);
    MalformedCases(op, s, l, switchedOff, o);
    if !Reached(s, last) {
      ExhaustedGivesHistoryBack(op, s, l, o);
      CallsAreInHistory(op, s, l);
    } else if !Unstampable(op.row, s.reply(last.id)) {
      var code := Remembered(op.row, s.reply(last.id)).value.0;
      StampedGivesHistoryBack(op, s, l, code);
      CallsAreInHistory(op, s, l);
    }
  }

  /** The malformed report of an exhaustion carries the stamp of a result rejected now. */
  lemma ExhaustedStampIs(op: Operation, l: Ledger, h: seq<AttemptRecord>, o: Outcome)
    requires LastRejected(op, l).Some? && h != [] && o == RejectionReport(LastRejected(op, l).value, h) && o.Malformed?
    ensures op.row.RetryEligible() ==> o.used == Some(Seed(op) + |l.calls|) && o.budget == Some(Budget(Count(l)))
    ensures !op.row.RetryEligible() ==> o.used.None?
  {
    RejectedIsReport(op, l);
    ReportOfRejection(LastRejected(op, l).value, h);
  }

  /** A stamped malformed outcome, by where it comes from. */
  lemma StampIs(op: Operation, s: Surroundings, l: Ledger, o: Outcome)
    requires l.attempts != [] && o.Malformed? && FromLog(op, s, l, o)
    ensures o.used.Some? ==>
      o.used == Some(Seed(op) + |l.calls|) && o.budget == Some(Budget(Count(l))) && op.row.RetryEligible()
    ensures op.row.RetryEligible() ==>
      (o.used.None? <==> Reached(s, Last(l.attempts)) && Unstampable(op.row, s.reply(Last(l.attempts).id)))
  {
    var last, h := Last(l.attempts), History(op, s, l);
    if !Reached(s, last) {
      ExhaustedStampIs(op, l, h, o);
    } else if !Unstampable(op.row, s.reply(last.id)) {
      var code := Remembered(op.row, s.reply(last.id)).value.0;
      AttachKeepsReport(Stamped(op, l, last.id, last.model, code), h);
    }
  }

  /** A stamp is the number of calls that the press has made so far, and the budget; only rows whose results are
      retried get one. */
  lemma StampsCountCalls(op: Operation, s: Surroundings, l: Ledger, switchedOff: seq<ModelId>, o: Outcome)
    requires Finished(op, s, l, switchedOff, o) && Last(l.attempts).outcome.Some? && o.Malformed?
    ensures l.calls != []
    ensures o.used.Some? ==>
      o.used == Some(Seed(op) + |l.calls|) && o.budget == Some(Budget(Count(l))) && op.row.RetryEligible()
  {
    var last := Last(l.attempts);
    MalformedCases(op, s, l, switchedOff, o);
    assert l.calls == l.calls[..|l.calls|];
    if !Reached(s, last) {
      RejectedIsReached(op, s, l, LastRejection(l.attempts).value);
    } else {
      ReachedIsCalled(s, l.attempts, last);
    }
    StampIs(op, s, l, o);
  }

  lemma UnstampableIsMalformed(op: Operation, s: Surroundings, l: Ledger, switchedOff: seq<ModelId>, o: Outcome)
    requires LogIsTrue(op, s, l) && l.attempts != [] && SettlesAs(op, s, l, switchedOff, o)
    requires Reached(s, Last(l.attempts)) && Unstampable(op.row, s.reply(Last(l.attempts).id))
    ensures o.Malformed? && o.used.None? && o.attemptId.None? && o.prior == []
  {
    assert TrueTo(op, s, Count(l), Last(l.attempts)) by {
      assert Last(l.attempts) in l.attempts;
    }
  }

  /** The result of a row whose results are retried is malformed and unstamped exactly when the last attempt was sent
      and its reply is over the size limit, in a foreign spool, or readable but nothing that the row asked for. */
  lemma UnstampedExactlyWhen(op: Operation, s: Surroundings, l: Ledger, switchedOff: seq<ModelId>, o: Outcome)
    requires Finished(op, s, l, switchedOff, o) && Last(l.attempts).outcome.Some? && op.row.RetryEligible()
    ensures
      (o.Malformed? && o.used.None?) <==>
      (Reached(s, Last(l.attempts)) && Unstampable(op.row, s.reply(Last(l.attempts).id)))
  {
    var last := Last(l.attempts);
    if o.Malformed? {
      MalformedCases(op, s, l, switchedOff, o);
      StampIs(op, s, l, o);
    } else if Reached(s, last) && Unstampable(op.row, s.reply(last.id)) {
      UnstampableIsMalformed(op, s, l, switchedOff, o);
    }
  }

  /** A call that the round went on after does not keep a result from being stamped. */
  lemma {:induction false} EarlierCallsAreStampable(op: Operation, s: Surroundings, l: Ledger, attempts: seq<Attempt>)
    requires forall a :: a in attempts && Reached(s, a) ==> FellBack(op, s, Count(l), a)
    ensures forall id :: id in SentIds(s, attempts) ==> !Unstampable(op.row, s.reply(id))
  {
    if attempts != [] {
      var front, a := attempts[..|attempts| - 1], Last(attempts);
      assert forall x :: x in front ==> x in attempts;
      EarlierCallsAreStampable(op, s, l, front);
      assert a in attempts;
      if Reached(s, a) {
        FallbackIsRemembered(op.row, s.reply(a.id), a.outcome.value);
      }
    }
  }

  /** Before the last attempt, every attempt of a true log fell back. */
  lemma FrontFellBack(op: Operation, s: Surroundings, l: Ledger)
    requires WellLogged(l.attempts) && LogIsTrue(op, s, l) && l.attempts != []
    ensures forall a :: a in l.attempts[..|l.attempts| - 1] ==> FellBack(op, s, Count(l), a)
  {
    forall a | a in l.attempts[..|l.attempts| - 1]
      ensures FellBack(op, s, Count(l), a)
    {
      var i :| 0 <= i < |l.attempts| - 1 && l.attempts[i] == a;
    }
  }

  /** So the reply to a round's last call alone decides whether its result can be stamped. */
  lemma LastCallDecides(op: Operation, s: Surroundings, l: Ledger)
    requires WellLogged(l.attempts) && LogIsTrue(op, s, l) && CallsMatch(s, l, |l.calls|) && l.attempts != []
    ensures
      (l.calls != [] && Unstampable(op.row, s.reply(Last(l.calls)))) <==>
      (Reached(s, Last(l.attempts)) && Unstampable(op.row, s.reply(Last(l.attempts).id)))
  {
    var front, last := l.attempts[..|l.attempts| - 1], Last(l.attempts);
    FrontFellBack(op, s, l);
    EarlierCallsAreStampable(op, s, l, front);
    assert l.calls == l.calls[..|l.calls|] == SentIds(s, front) + (if Reached(s, last) then [last.id] else []);
    if !Reached(s, last) && l.calls != [] {
      assert Last(l.calls) in SentIds(s, front);
    }
  }

  lemma UnstampedByLastCall(op: Operation, s: Surroundings, l: Ledger, switchedOff: seq<ModelId>, o: Outcome)
    requires Finished(op, s, l, switchedOff, o) && Last(l.attempts).outcome.Some? && op.row.RetryEligible()
    ensures
      (o.Malformed? && o.used.None?) <==> (l.calls != [] && Unstampable(op.row, s.reply(Last(l.calls))))
  {
    LastCallDecides(op, s, l);
    UnstampedExactlyWhen(op, s, l, switchedOff, o);
  }

  // ---------- how often a candidate is tried ----------

  /** No model is reserved more often than once, once more for a dropped connection and twice more for lack of
      capacity, and only ranked models that can serve the mode are reserved at all. */
  lemma FewAttemptsEach(op: Operation, s: Surroundings, l: Ledger, switchedOff: seq<ModelId>, o: Outcome, m: ModelId)
    requires Finished(op, s, l, switchedOff, o)
    ensures |AttemptsOf(l.attempts, m)| <= 4
    ensures Candidate(m, true) !in l.ranked ==> AttemptsOf(l.attempts, m) == []
  {
    WalkTimes(l.ranked[..l.cursor], Trail(l.attempts), m, MAX_REPEATS);
    TimesCountAttempts(l.attempts, m);
    assert Candidate(m, true) in l.ranked[..l.cursor] ==> Candidate(m, true) in l.ranked;
  }

  // ---------- which candidates a retry passes over ----------

  lemma SupportedAsSet(ranked: seq<Candidate>)
    requires DistinctCandidates(ranked)
    ensures |set c | c in ranked && c.supported :: c.model| == SupportedCount(ranked)
  {
    SupportedModelsCount(ranked);
    assert SupportedModels(ranked) == set c | c in ranked && c.supported :: c.model by {
      forall c | c in ranked && c.supported
        ensures c == Candidate(c.model, true)
      {
      }
    }
  }

  /** Whatever the press tried before: while that names fewer models than there are candidates that can serve the mode,
      none of those models is claimed or sent again, and afterwards none of those that failed before any response. */
  lemma TriedAgainOnlyWhen(op: Operation, s: Surroundings, l: Ledger, switchedOff: seq<ModelId>, o: Outcome, a: Attempt)
    requires Finished(op, s, l, switchedOff, o) && a in l.attempts && (a.claimed || a.invoked)
    ensures
      var tried := |set x | x in op.prior && x.model.Some? :: x.model.value|;
      var usable := |set c | c in l.ranked && c.supported :: c.model|;
      a.model.Some? && forall r :: r in op.prior && r.model == a.model ==> !r.skipOnRetry && tried >= usable
  {
    var i :| 0 <= i < |l.attempts| && l.attempts[i] == a;
    SupportedAsSet(l.ranked);
    SkipOnRetryMeans(op.prior, Count(l), a.model.value);
  }

  /** And none is passed over that need not be. Of an attempt after which the round went on, and of the last one unless
      its prompt or its record could not be had: when it was settled without a claim, its model has a record, and one
      that failed before any response or else there were untried candidates. */
  lemma PassedOverOnlyWhen(op: Operation, s: Surroundings, l: Ledger, switchedOff: seq<ModelId>, o: Outcome, i: nat)
    requires Finished(op, s, l, switchedOff, o) && i < |l.attempts|
    requires l.attempts[i].model.Some? && l.attempts[i].outcome.Some? && !l.attempts[i].claimed
    requires
      i < |l.attempts| - 1 ||
      (var id := l.attempts[i].id; s.assemble(id) && s.admission(id).Lands? && s.discards(id))
    ensures
      var tried := |set x | x in op.prior && x.model.Some? :: x.model.value|;
      var usable := |set c | c in l.ranked && c.supported :: c.model|;
      exists r :: r in op.prior && r.model == l.attempts[i].model && (r.skipOnRetry || tried < usable)
  {
    assert TrueTo(op, s, Count(l), l.attempts[i]);
    assert i < |l.attempts| - 1 ==> GoesPast(op, Count(l), l.attempts[i]);
    SupportedAsSet(l.ranked);
    SkipOnRetryMeans(op.prior, Count(l), l.attempts[i].model.value);
  }

  lemma {:induction false} NoEntryOf(row: Row, s: Surroundings, attempts: seq<Attempt>, i: nat)
    requires i < |attempts| && Entries(row, s, attempts) == []
    ensures EntryOf(row, s, attempts[i]) == []
  {
    if i < |attempts| - 1 {
      NoEntryOf(row, s, attempts[..|attempts| - 1], i);
    }
  }

  /** While nothing was sent and nothing failed, what lies behind was passed over. */
  lemma OnlyPassedOver(op: Operation, s: Surroundings, l: Ledger, i: nat)
    requires WellLogged(l.attempts) && LogIsTrue(op, s, l) && PassesOver(op, l) && CallsMatch(s, l, |l.calls|)
    requires l.calls == [] && Entries(op.row, s, l.attempts) == []
    requires i < |l.attempts| - 1 && l.attempts[i].model.Some?
    ensures l.attempts[i].model.value in Passed(op, l)
  {
    var a := l.attempts[i];
    assert TrueTo(op, s, Count(l), a) && GoesPast(op, Count(l), a);
    NoEntryOf(op.row, s, l.attempts, i);
    if Reached(s, a) {
      ReachedIsCalled(s, l.attempts, a);
    }
  }

  /** The candidate in hand then is the first of the ranking that can serve the mode and is not passed over. */
  lemma HandIsFirst(op: Operation, s: Surroundings, l: Ledger, m: ModelId) returns (n: nat)
    requires WellLogged(l.attempts) && LogIsTrue(op, s, l) && PassesOver(op, l) && CallsMatch(s, l, |l.calls|)
    requires l.calls == [] && Entries(op.row, s, l.attempts) == [] && RankedWalk(l)
    requires l.attempts != [] && Last(l.attempts).model == Some(m) && m !in Passed(op, l)
    ensures n < |l.ranked| && l.ranked[n] == Candidate(m, true)
    ensures forall k :: 0 <= k < n && l.ranked[k].supported ==> l.ranked[k].model in Passed(op, l)
  {
    var walked := l.ranked[..l.cursor];
    WalkedModels(walked, Trail(l.attempts));
    assert Last(Trail(l.attempts)).1 == m && Last(Trail(l.attempts)) in Trail(l.attempts);
    n :| 0 <= n < |walked| && walked[n] == Candidate(m, true);
    forall k | 0 <= k < n && l.ranked[k].supported
      ensures l.ranked[k].model in Passed(op, l)
    {
      assert walked[k] in walked;
      WalkCovers(walked, Trail(l.attempts), walked[k]);
      var x :| x in Trail(l.attempts) && x.1 == walked[k].model;
      var a := TrailIsOfLog(l.attempts, x);
      var i :| 0 <= i < |l.attempts| && l.attempts[i] == a;
      OnlyPassedOver(op, s, l, i);
    }
  }

  // ---------- when one call is all there is ----------

  /** Nothing but the provider decides how an operation ends. */
  ghost predicate Works(s: Surroundings)
  {
    (forall id :: s.attach(id) && s.assemble(id) && s.hook(id) && s.prepare(id).Prepared?) &&
    (forall id :: s.admission(id).Lands? && s.discards(id))
  }

  /** No reply of these providers lets the round go on. */
  ghost predicate EndsAtOnce(row: Row, s: Surroundings)
  {
    forall id, a :: RecordedAs(row, s.reply(id), a) ==> !FallbackEligible(a)
  }

  /** Some candidate can serve the mode and is not passed over. */
  ghost predicate OpenCandidate(op: Operation, ranked: seq<Candidate>)
  {
    exists c :: c in ranked && c.supported && c.model !in SkipOnRetry(op.prior, SupportedCount(ranked))
  }

  lemma {:induction false} OnlyTheLastIsSent(s: Surroundings, attempts: seq<Attempt>)
    requires forall a :: a in attempts ==> !Reached(s, a)
    ensures SentIds(s, attempts) == []
  {
    if attempts != [] {
      assert forall a :: a in attempts[..|attempts| - 1] ==> a in attempts;
      assert Last(attempts) in attempts;
      OnlyTheLastIsSent(s, attempts[..|attempts| - 1]);
    }
  }

  lemma {:induction false} SupportedIsCounted(ranked: seq<Candidate>, c: Candidate)
    requires c in ranked && c.supported
    ensures SupportedCount(ranked) > 0
  {
    if c != Last(ranked) {
      assert ranked == ranked[..|ranked| - 1] + [Last(ranked)];
      SupportedIsCounted(ranked[..|ranked| - 1], c);
    }
  }

  /** Where nothing else stands in the way, a reserved attempt that went unsent was passed over. */
  lemma UnsentWasPassedOver(op: Operation, s: Surroundings, l: Ledger, a: Attempt)
    requires LogIsTrue(op, s, l) && Works(s) && a in l.attempts && a.model.Some?
    requires a.outcome.Some? && !a.invoked
    ensures a.model.value in Passed(op, l)
  {
    assert TrueTo(op, s, Count(l), a);
  }

  /** Before the last attempt nothing was sent. */
  lemma NothingSentBefore(op: Operation, s: Surroundings, l: Ledger)
    requires WellLogged(l.attempts) && LogIsTrue(op, s, l) && l.attempts != [] && Works(s) && EndsAtOnce(op.row, s)
    ensures forall a :: a in l.attempts[..|l.attempts| - 1] ==> !a.invoked && a.outcome.Some?
  {
    forall a | a in l.attempts[..|l.attempts| - 1]
      ensures !a.invoked && a.outcome.Some?
    {
      var i :| 0 <= i < |l.attempts| - 1 && l.attempts[i] == a;
      assert TrueTo(op, s, Count(l), a);
    }
  }

  lemma AllWerePassedOver(op: Operation, s: Surroundings, l: Ledger, c: Candidate)
    requires LogIsTrue(op, s, l) && RankedWalk(l) && l.cursor == |l.ranked| && Works(s)
    requires l.attempts != [] && !Last(l.attempts).invoked && Last(l.attempts).outcome.Some?
    requires forall a :: a in l.attempts[..|l.attempts| - 1] ==> !a.invoked && a.outcome.Some?
    requires c in l.ranked && c.supported
    ensures c.model in Passed(op, l)
  {
    assert l.attempts == l.attempts[..|l.attempts| - 1] + [Last(l.attempts)];
    assert l.ranked[..l.cursor] == l.ranked;
    WalkCovers(l.ranked, Trail(l.attempts), c);
    var x :| x in Trail(l.attempts) && x.1 == c.model;
    var a := TrailIsOfLog(l.attempts, x);
    UnsentWasPassedOver(op, s, l, a);
  }

  /** The round cannot have come to an end without a call. */
  lemma TheLastIsSent(op: Operation, s: Surroundings, l: Ledger, switchedOff: seq<ModelId>, o: Outcome)
    requires WellLogged(l.attempts) && LogIsTrue(op, s, l) && RankedWalk(l) && SettlesAs(op, s, l, switchedOff, o)
    requires Works(s) && !op.resumed && EndsAtOnce(op.row, s) && OpenCandidate(op, l.ranked)
    ensures Last(l.attempts).outcome.Some? && Last(l.attempts).invoked
  {
    var last := Last(l.attempts);
    assert last in l.attempts && TrueTo(op, s, Count(l), last);
    if !last.invoked {
      var c :| c in l.ranked && c.supported && c.model !in Passed(op, l);
      SupportedIsCounted(l.ranked, c);
      NothingSentBefore(op, s, l);
      AllWerePassedOver(op, s, l, c);
    }
  }

  /** Whatever such a round returns, it made exactly one call, for its last attempt. */
  lemma OneCallEnds(op: Operation, s: Surroundings, l: Ledger, switchedOff: seq<ModelId>, o: Outcome)
    requires Finished(op, s, l, switchedOff, o)
    requires Works(s) && !op.resumed && EndsAtOnce(op.row, s) && OpenCandidate(op, l.ranked)
    ensures Last(l.attempts).outcome.Some? && Reached(s, Last(l.attempts)) && l.calls == [Last(l.attempts).id]
  {
    TheLastIsSent(op, s, l, switchedOff, o);
    NothingSentBefore(op, s, l);
    OnlyTheLastIsSent(s, l.attempts[..|l.attempts| - 1]);
    assert l.calls == l.calls[..|l.calls|];
  }

  lemma {:induction false} SmallerSet<T>(a: set<T>, b: set<T>)
    requires a <= b
    ensures |a| <= |b|
  {
    if a != {} {
      var x :| x in a;
      SmallerSet(a - {x}, b - {x});
    }
  }

  /** As long as no earlier attempt failed before a response, some candidate is always left to try. */
  lemma OpenUnlessSkipped(op: Operation, ranked: seq<Candidate>)
    requires DistinctCandidates(ranked) && SupportedCount(ranked) > 0
    requires forall r :: r in op.prior ==> !r.skipOnRetry
    ensures OpenCandidate(op, ranked)
  {
    SupportedModelsCount(ranked);
    var tried, models := Tried(op.prior), SupportedModels(ranked);
    var passed := SkipOnRetry(op.prior, SupportedCount(ranked));
    if |tried| < SupportedCount(ranked) {
      if models <= tried {
        SmallerSet(models, tried);
      }
      var m :| m in models && m !in tried;
      assert Candidate(m, true) in ranked && m !in passed;
    } else {
      assert forall i :: 0 <= i < |op.prior| ==> op.prior[i] in op.prior;
      assert passed == {};
      assert models != {};
      var m :| m in models;
      assert Candidate(m, true) in ranked;
    }
  }

  /** That call's failure is then all the history there is, and no reason to pass its candidate over. */
  lemma OneCallHistory(op: Operation, s: Surroundings, l: Ledger)
    requires WellLogged(l.attempts) && LogIsTrue(op, s, l) && l.attempts != [] && Works(s) && EndsAtOnce(op.row, s)
    ensures History(op, s, l) == op.prior + EntryOf(op.row, s, Last(l.attempts))
  {
    NothingSentBefore(op, s, l);
    forall a | a in l.attempts[..|l.attempts| - 1]
      ensures EntryOf(op.row, s, a) == []
    {
      assert a in l.attempts && TrueTo(op, s, Count(l), a);
    }
    NoEntries(op.row, s, l.attempts[..|l.attempts| - 1]);
  }

  lemma {:induction false} NoEntries(row: Row, s: Surroundings, attempts: seq<Attempt>)
    requires forall a :: a in attempts ==> EntryOf(row, s, a) == []
    ensures Entries(row, s, attempts) == []
  {
    if attempts != [] {
      assert forall a :: a in attempts[..|attempts| - 1] ==> a in attempts;
      assert Last(attempts) in attempts;
      NoEntries(row, s, attempts[..|attempts| - 1]);
    }
  }
}
