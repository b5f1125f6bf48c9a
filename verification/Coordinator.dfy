/** `admitAction`, `continueAdmittedAction`, `abortAdmittedAction`, `executeAction` and `resumeAction`
    (src/actions/taskActionCoordinatorV1.ts): whatever way an execution goes, it is audited once, follows up at most
    once, and ends its progress as often as it began it. */
module Coordinator {
  import opened Wrappers
  import opened ProviderSelection
  import opened TaskOutcome
  import opened RoundParts
  import opened AttemptLog
  import opened AttemptBooks
  import opened RoundSteps
  import opened RoundEndings
  import opened ProviderRow
  import RoundResults

  /** What an earlier send of the same message left behind. */
  datatype Earlier = NothingBefore | CompletedBefore | HeldBefore

  /** A request with everything its checks will find; a lifecycle row carries the outcome its transition has. */
  datatype Request = Request(
    row: Row,
    lifecycle: Option<Outcome>,
    followUp: bool,
    eligible: bool,
    stageValid: bool,
    inputValid: bool,
    cancelled: bool,
    startLeaseFree: bool,
    earlier: Earlier,
    seed: Option<nat>,
    prior: seq<AttemptRecord>)

  type TicketId = nat

  /** An admitted operation: its session and selection, and the candidate reserved for the first attempt. */
  datatype Ticket = Ticket(id: TicketId, op: Operation, followUp: bool, parts: Parts, initial: Carried)

  datatype Admission = SettledAtOnce(outcome: Outcome) | Admitted(ticket: Ticket)

  /** The interaction's record as a Resume finds it; a settled one by the id of this very Resume or by another. */
  datatype Posted = Unanswered | Answered | SettledByThis | SettledByAnother

  datatype Loaded = LoadStorageDown | NotLoadable | Loaded(
    bindingMatches: bool,
    registered: bool,       // still a provider row of the registry
    sameSemantics: bool,
    eligible: bool,
    posted: Posted,
    answersKept: bool,
    snapshotReadable: bool,
    inputValid: bool)

  /** A Resume request with everything its checks will find; `resolution`: the settled resolution's recorded attempt, if
      the record could be settled. */
  datatype ResumeRequest = ResumeRequest(
    idWellFormed: bool,
    loaded: Loaded,
    cancelled: bool,
    startLeaseFree: bool,
    resolution: Option<Option<AttemptId>>)

  /** The checks before a Resume takes its lease, in their order; none of them changes the interaction. */
  function ResumeRefusal(q: ResumeRequest): Option<Outcome>
  {
    if !q.idWellFormed then Some(Failure(InvalidResumeIdempotencyId, false, None))
    else if q.loaded.LoadStorageDown? then Some(Unavailable(WorkflowStorageUnavailable, None))
    else if q.loaded.NotLoadable? then Some(RecoveryRequired)
    else
      var l := q.loaded;
      if !l.bindingMatches then Some(Failure(ResumeBindingMismatch, false, None))
      else if !l.registered then Some(Failure(ResumeActionUnavailable, false, None))
      else if !l.sameSemantics then Some(Failure(ResumeSemanticsChanged, false, None))
      else if !l.eligible then Some(Failure(NotEligible, false, None))
      else if l.posted.Unanswered? then Some(Failure(AnswersNotSubmitted, false, None))
      else if l.posted.SettledByAnother? then Some(Failure(InteractionAlreadySettled, false, None))
      else if !l.answersKept then Some(Failure(AnswersNotSubmitted, false, None))
      else if !l.snapshotReadable then Some(RecoveryRequired)
      else if !l.inputValid then Some(Failure(InvalidActionInput, false, None))
      else if q.cancelled then Some(Cancelled(true))
      else None
  }

  /** The first check that fails settles a Resume. */
  lemma FirstFailedCheckRefuses(q: ResumeRequest, o: Outcome)
    ensures ResumeRefusal(q).None? <==>
      q.idWellFormed && q.loaded.Loaded? && q.loaded.bindingMatches && q.loaded.registered && q.loaded.sameSemantics &&
      q.loaded.eligible && (q.loaded.posted.Answered? || q.loaded.posted.SettledByThis?) && q.loaded.answersKept &&
      q.loaded.snapshotReadable && q.loaded.inputValid && !q.cancelled
    ensures ResumeRefusal(q) == Some(o) ==>
      (!q.idWellFormed ==> o == Failed(InvalidResumeIdempotencyId, false, None, None, [])) &&
      (q.idWellFormed ==>
        match q.loaded
        case LoadStorageDown => o == Unavailable(WorkflowStorageUnavailable, None)
        case NotLoadable => o == RecoveryRequired
        case Loaded(binding, registered, semantics, eligible, posted, kept, readable, valid) =>
          (!binding ==> o == Failed(ResumeBindingMismatch, false, None, None, [])) &&
          (binding && !registered ==> o == Failed(ResumeActionUnavailable, false, None, None, [])) &&
          (binding && registered && !semantics ==> o == Failed(ResumeSemanticsChanged, false, None, None, [])) &&
          (binding && registered && semantics ==>
            (!eligible ==> o == Failed(NotEligible, false, None, None, [])) &&
            (eligible && posted.Unanswered? ==> o == Failed(AnswersNotSubmitted, false, None, None, [])) &&
            (eligible && posted.SettledByAnother? ==> o == Failed(InteractionAlreadySettled, false, None, None, [])) &&
            (eligible && (posted.Answered? || posted.SettledByThis?) ==>
              (!kept ==> o == Failed(AnswersNotSubmitted, false, None, None, [])) &&
              (kept && !readable ==> o == RecoveryRequired) &&
              (kept && readable && !valid ==> o == Failed(InvalidActionInput, false, None, None, [])) &&
              (kept && readable && valid && q.cancelled ==> o == Cancelled(true)))))
  {
  }

  /** The checks that reject an action before it has an operation, in their order. */
  function EarlyRefusal(r: Request): Option<Outcome>
  {
    if !r.eligible then Some(Failure(NotEligible, false, None))
    else if !r.stageValid then Some(Failure(InvalidTaskStage, false, None))
    else if !r.inputValid then Some(Failure(InvalidActionInput, false, None))
    else if r.cancelled then Some(Cancelled(true))
    else None
  }

  ghost predicate Increasing(s: seq<nat>, bound: nat)
  {
    (forall i, j :: 0 <= i < j < |s| ==> s[i] < s[j]) && (forall i :: 0 <= i < |s| ==> s[i] < bound)
  }

  /** Every ticket handed out is either open or retired, and only retired ones are being run. */
  ghost predicate Tickets(open: set<TicketId>, running: set<TicketId>, retired: set<TicketId>, next: TicketId)
  {
    open !! retired && running <= retired && (forall t: TicketId :: t in open || t in retired <==> t < next)
  }

  class TaskActions {
    var audit: seq<Outcome>      // one settlement record for every finished execution
    var followUps: seq<nat>      // the audit records that scheduled a follow-up
    var begun: nat               // progress presentations
    var ended: nat
    var nextTicket: TicketId
    var retired: set<TicketId>
    ghost var open: set<TicketId>     // admitted, not retired yet
    ghost var running: set<TicketId>  // retired, not settled yet
    ghost var started: nat            // executions so far

    /** Over any history of calls: every execution is either not settled yet or audited exactly once; every follow-up
        belongs to its own completed execution; progress is open for exactly the admitted, unsettled tickets. */
    ghost predicate Valid()
      reads this
    {
      started == |audit| + |open| + |running| &&
      begun == ended + |open| + |running| &&
      Increasing(followUps, |audit|) && (forall k :: k in followUps ==> audit[k].Completed?) &&
      Tickets(open, running, retired, nextTicket)
    }

    constructor ()
      ensures Valid() && audit == [] && followUps == [] && begun == 0 && ended == 0 && started == 0
    {
      audit, followUps, begun, ended, nextTicket, retired := [], [], 0, 0, 0, {};
      open, running, started := {}, {}, 0;
    }

    /** One settlement record, and for a completed outcome at most one follow-up. */
    method FinalizeOutcome(o: Outcome, followUp: bool)
      requires Increasing(followUps, |audit|) && (forall k :: k in followUps ==> audit[k].Completed?)
      modifies this`audit, this`followUps
      ensures audit == old(audit) + [o]
      ensures followUps == old(followUps) + (if o.Completed? && followUp then [|old(audit)|] else [])
      ensures Increasing(followUps, |audit|) && (forall k :: k in followUps ==> audit[k].Completed?)
    {
      if o.Completed? && followUp {
        followUps := followUps + [|audit|];
      }
      audit := audit + [o];
    }

    // ---------- admission ----------

    /** An execution that ends inside admission. */
    method SettleAtOnce(o: Outcome, followUp: bool)
      requires Valid()
      modifies this`audit, this`followUps, this`started
      ensures Valid() && started == old(started) + 1 && audit == old(audit) + [o]
      ensures followUps == old(followUps) + (if o.Completed? && followUp then [|old(audit)|] else [])
    {
      FinalizeOutcome(o, followUp);
      started := started + 1;
    }

    /** The same, with progress shown meanwhile or not. */
    method SettleAdmission(o: Outcome, followUp: bool, shown: bool)
      requires Valid()
      modifies this`audit, this`followUps, this`started, this`begun, this`ended
      ensures Valid() && started == old(started) + 1 && audit == old(audit) + [o]
      ensures followUps == old(followUps) + FollowUpOf(o, followUp, |old(audit)|)
      ensures begun - old(begun) == ended - old(ended) == if shown then 1 else 0
    {
      if shown {
        begun, ended := begun + 1, ended + 1;
      }
      SettleAtOnce(o, followUp);
    }

    /** An execution that was admitted: its progress stays open. */
    method OpenTicket(op: Operation, followUp: bool, parts: Parts, initial: Carried) returns (t: Ticket)
      requires Valid()
      modifies this`open, this`started, this`nextTicket, this`begun
      ensures Valid() && t == Ticket(old(nextTicket), op, followUp, parts, initial)
      ensures started == old(started) + 1 && begun == old(begun) + 1
      ensures open == old(open) + {t.id} && t.id !in old(open) && t.id !in retired
    {
      t := Ticket(nextTicket, op, followUp, parts, initial);
      nextTicket, begun := nextTicket + 1, begun + 1;
      open, started := open + {t.id}, started + 1;
    }

    /** `claimTicketForRetirement`: at once, before anything else happens to the ticket. */
    method ClaimTicket(id: TicketId)
      requires Valid() && id < nextTicket && id !in retired
      modifies this`retired, this`open, this`running
      ensures Valid() && id in old(open)
      ensures retired == old(retired) + {id} && open == old(open) - {id}
      ensures running == old(running) + {id} && id !in old(running)
    {
      retired := retired + {id};
      open, running := open - {id}, running + {id};
    }

    /** Settle a claimed ticket: audit, follow-up, end of progress. */
    method FinishTicket(id: TicketId, o: Outcome, followUp: bool)
      requires Valid() && id in running
      modifies this`audit, this`followUps, this`ended, this`running
      ensures Valid() && running == old(running) - {id} && audit == old(audit) + [o] && ended == old(ended) + 1
      ensures followUps == old(followUps) + FollowUpOf(o, followUp, |old(audit)|)
    {
      FinalizeOutcome(o, followUp);
      ended := ended + 1;
      assert |running - {id}| == |running| - 1;
      running := running - {id};
    }

    /** Admission's entry in the books. */
    method BookAdmission(r: Request, p: Parts, settled: Option<Outcome>, initial: Option<Carried>)
      returns (a: Admission)
      requires Valid() && (settled.None? ==> initial.Some?)
      modifies this
      ensures Valid() && started == old(started) + 1 && retired == old(retired)
      ensures settled.Some? ==>
        a == SettledAtOnce(settled.value) && audit == old(audit) + [a.outcome] && open == old(open) &&
        begun - old(begun) == ended - old(ended) == (if EarlyRefusal(r).None? then 1 else 0) &&
        followUps == old(followUps) + FollowUpOf(a.outcome, r.followUp, |old(audit)|)
      ensures settled.None? ==>
        a.Admitted? && a.ticket == Ticket(a.ticket.id, OperationOf(r), r.followUp, p, initial.value) &&
        audit == old(audit) && followUps == old(followUps) && ended == old(ended) && begun == old(begun) + 1 &&
        a.ticket.id !in old(open) && a.ticket.id !in retired && open == old(open) + {a.ticket.id}
    {
      if settled.Some? {
        SettleAdmission(settled.value, r.followUp, EarlyRefusal(r).None?);
        return SettledAtOnce(settled.value);
      }
      var t := OpenTicket(OperationOf(r), r.followUp, p, initial.value);
      return Admitted(t);
    }

    /** Everything that can reject an action without reaching a provider. An admitted operation stands at the head of
        its attempt loop, with the candidate in hand and, if its row can ask questions, a pending record. */
    method AdmitAction(r: Request, s: Surroundings, p: Parts) returns (a: Admission)
      requires Valid() && NewParts(r.row, p)
      modifies this, p.session, p.selection, p.record, p.lease
      ensures Valid() && started == old(started) + 1 && retired == old(retired)
      ensures p.broker.calls == [] && p.lease.Balanced() && !p.lease.held
      // settled at once: for exactly the reason that applies first; an early refusal shows no progress
      ensures a.SettledAtOnce? ==>
        audit == old(audit) + [a.outcome] && open == old(open) &&
        begun - old(begun) == ended - old(ended) ==
          (if r.eligible && r.stageValid && r.inputValid && !r.cancelled then 1 else 0) &&
        followUps == old(followUps) + FollowUpOf(a.outcome, r.followUp, |old(audit)|) &&
        SettledInAdmission(r, s, p, old(p.record.state), a.outcome)
      ensures EarlyRefusal(r).Some? || BusyElsewhere(r) || r.lifecycle.Some? ==> a.SettledAtOnce?
      ensures !r.eligible ==> a == SettledAtOnce(Failed(NotEligible, false, None, None, []))
      ensures r.eligible && !r.stageValid ==> a == SettledAtOnce(Failed(InvalidTaskStage, false, None, None, []))
      ensures r.eligible && r.stageValid && !r.inputValid ==>
        a == SettledAtOnce(Failed(InvalidActionInput, false, None, None, []))
      ensures r.eligible && r.stageValid && r.inputValid ==>
        (r.cancelled ==> a == SettledAtOnce(Cancelled(true))) &&
        (!r.cancelled && r.row.needsLease && !r.startLeaseFree ==> a == SettledAtOnce(DuplicateRejected)) &&
        (!r.cancelled && (r.row.needsLease ==> r.startLeaseFree) && r.lifecycle.Some? ==>
          a == SettledAtOnce(r.lifecycle.value))
      ensures p.lease.acquired ==
        old(p.lease.acquired) +
        (if r.eligible && r.stageValid && r.inputValid && !r.cancelled && r.row.needsLease && r.startLeaseFree then 1
         else 0)
      // admitted: at the head of the attempt loop
      ensures a.Admitted? ==>
        a.ticket == Ticket(a.ticket.id, OperationOf(r), r.followUp, p, a.ticket.initial) &&
        audit == old(audit) && followUps == old(followUps) && ended == old(ended) && begun == old(begun) + 1 &&
        a.ticket.id !in old(open) && a.ticket.id !in retired && open == old(open) + {a.ticket.id} &&
        Startable(OperationOf(r), s, p, a.ticket.initial)
    {
      var settled, initial := Admit(r, s, p);
      a := BookAdmission(r, p, settled, initial);
    }

    // ---------- retirement ----------

    /** Run the provider and settle; a ticket that was retired before changes nothing. */
    method ContinueAdmittedAction(t: Ticket, s: Surroundings, discards: bool)
      returns (o: Option<Outcome>, settleTried: bool)
      requires Valid() && t.id < nextTicket
      requires t.id !in retired ==> AtHead(t.op, s, t.parts, StartRound(t.op, Some(t.initial))) && !t.op.resumed
      modifies this, t.parts.session, t.parts.selection, t.parts.record, t.parts.lease, t.parts.target, t.parts.broker
      ensures Valid() && started == old(started) && begun == old(begun)
      ensures old(t.id in retired) ==>
        o.None? && unchanged(this) &&
        unchanged(t.parts.session, t.parts.selection, t.parts.record, t.parts.lease, t.parts.target, t.parts.broker)
      ensures old(t.id !in retired) ==>
        o.Some? && audit == old(audit) + [o.value] && ended == old(ended) + 1 && retired == old(retired) + {t.id} &&
        followUps == old(followUps) + FollowUpOf(o.value, t.followUp, |old(audit)|) && open == old(open) - {t.id} &&
        RoundSettled(t.op, s, t.parts, o.value, settleTried, discards) &&
        PromotedOnce(t.parts, old(t.parts.target.promoted), o.value)
    {
      if t.id in retired {
        return None, false;
      }
      var outcome;
      outcome, settleTried := ContinueFirst(t, s, discards);
      o := Some(outcome);
    }

    /** The first retirement: claim, run, settle. */
    method ContinueFirst(t: Ticket, s: Surroundings, discards: bool) returns (o: Outcome, settleTried: bool)
      requires Valid() && t.id < nextTicket && t.id !in retired
      requires AtHead(t.op, s, t.parts, StartRound(t.op, Some(t.initial))) && !t.op.resumed
      modifies this`audit, this`followUps, this`ended, this`running, this`retired, this`open
      modifies t.parts.session, t.parts.selection, t.parts.record, t.parts.lease, t.parts.target, t.parts.broker
      ensures Valid() && audit == old(audit) + [o] && ended == old(ended) + 1
      ensures retired == old(retired) + {t.id} && open == old(open) - {t.id}
      ensures followUps == old(followUps) + FollowUpOf(o, t.followUp, |old(audit)|)
      ensures RoundSettled(t.op, s, t.parts, o, settleTried, discards)
      ensures PromotedOnce(t.parts, old(t.parts.target.promoted), o)
    {
      ClaimTicket(t.id);
      assert AtHead(t.op, s, t.parts, StartRound(t.op, Some(t.initial)));
      ghost var claimed, left := retired, open;
      o, settleTried := ContinueClaimed(t, s, discards);
      assert retired == claimed && open == left;
    }

    method ContinueClaimed(t: Ticket, s: Surroundings, discards: bool) returns (o: Outcome, settleTried: bool)
      requires Valid() && t.id in running
      requires AtHead(t.op, s, t.parts, StartRound(t.op, Some(t.initial))) && !t.op.resumed
      modifies this`audit, this`followUps, this`ended, this`running
      modifies t.parts.session, t.parts.selection, t.parts.record, t.parts.lease, t.parts.target, t.parts.broker
      ensures Valid() && running == old(running) - {t.id} && audit == old(audit) + [o] && ended == old(ended) + 1
      ensures followUps == old(followUps) + FollowUpOf(o, t.followUp, |old(audit)|)
      ensures RoundSettled(t.op, s, t.parts, o, settleTried, discards)
      ensures PromotedOnce(t.parts, old(t.parts.target.promoted), o)
    {
      o, settleTried := RunAdmitted(t.op, s, t.parts, t.initial, discards);
      FinishTicket(t.id, o, t.followUp);
    }

    /** Give an admitted operation up before any provider was reached; its first attempt stays without an outcome. */
    method AbortAdmittedAction(t: Ticket, discards: bool) returns (o: Option<Outcome>)
      requires Valid() && t.id < nextTicket
      modifies this, t.parts.record
      ensures Valid() && started == old(started) && begun == old(begun) && followUps == old(followUps)
      ensures running == old(running)
      ensures old(t.id in retired) ==> o.None? && unchanged(this) && unchanged(t.parts.record)
      ensures old(t.id !in retired) ==>
        o == Some(Failure(AdmissionAborted, true, None)) &&
        audit == old(audit) + [o.value] && ended == old(ended) + 1 &&
        retired == old(retired) + {t.id} && open == old(open) - {t.id} &&
        t.parts.record.state ==
          if t.op.row.AsksQuestions() && discards && old(t.parts.record.state).Pending? then Absent
          else old(t.parts.record.state)
    {
      if t.id in retired {
        return None;
      }
      ClaimTicket(t.id);
      var outcome := Failure(AdmissionAborted, true, None);
      if t.op.row.AsksQuestions() {
        t.parts.record.Discard(discards);
      }
      FinishTicket(t.id, outcome, t.followUp);
      o := Some(outcome);
    }

    // ---------- a whole execution ----------

    method ExecuteAction(r: Request, s: Surroundings, p: Parts, discards: bool) returns (o: Outcome, settleTried: bool)
      requires Valid() && NewParts(r.row, p)
      modifies this, p.session, p.selection, p.record, p.lease, p.target, p.broker
      ensures Valid() && audit == old(audit) + [o] && started == old(started) + 1 && open == old(open)
      ensures begun - old(begun) == ended - old(ended)
      ensures followUps == old(followUps) + FollowUpOf(o, r.followUp, |old(audit)|)
      ensures
        (p.broker.calls == [] && p.target.promoted == old(p.target.promoted) &&
         SettledInAdmission(r, s, p, old(p.record.state), o)) ||
        (RoundSettled(OperationOf(r), s, p, o, settleTried, discards) && PromotedOnce(p, old(p.target.promoted), o))
    {
      var a := AdmitAction(r, s, p);
      if a.SettledAtOnce? {
        return a.outcome, false;
      }
      var result;
      result, settleTried := ContinueAdmittedAction(a.ticket, s, discards);
      o := result.value;
    }

    /** The drive itself: a refusal, or the operation. */
    method DriveResume(row: Row, followUp: bool, q: ResumeRequest, s: Surroundings, p: Parts) returns (o: Outcome)
      requires Valid() && StartsNothing(p) && (forall id :: s.hook(id))
      requires q.resolution.Some? ==> p.session.recorded == q.resolution.value
      modifies this, p.session, p.selection, p.record, p.lease, p.target, p.broker
      ensures Valid() && audit == old(audit) + [o] && started == old(started) + 1 && open == old(open)
      ensures begun - old(begun) == ended - old(ended) == (if ResumeRefusal(q).None? then 1 else 0)
      ensures followUps == old(followUps) + FollowUpOf(o, followUp, |old(audit)|)
      ensures p.lease.Balanced() && !p.lease.held
      // a refusal takes nothing and runs nothing
      ensures ResumeRefusal(q).Some? ==> o == ResumeRefusal(q).value && begun == old(begun)
      ensures ResumeRefusal(q).None? && row.needsLease && !q.startLeaseFree ==> o == DuplicateRejected
      ensures ResumeRefusal(q).None? && !(row.needsLease && !q.startLeaseFree) && q.resolution.None? ==>
        o == Failure(ResumeNotSettled, true, None)
      ensures !Resumes(row, q) ==>
        unchanged(p.session, p.selection, p.record, p.target, p.broker) &&
        p.lease.acquired ==
          old(p.lease.acquired) +
          (if ResumeRefusal(q).None? && row.needsLease && q.startLeaseFree then 1 else 0)
      // a round, under exactly the recorded attempt where there is one, and no call past a refusing gate
      ensures Resumes(row, q) ==> Finished(Operation(row, None, [], true), s, View(p), p.selection.switchedOff, o)
      // the workflow task changes exactly when that round's own attempt completed
      ensures Resumes(row, q) ==>
        p.session.attempts != [] &&
        PromotedOnly(old(p.target.promoted), p.target.promoted, Last(p.session.attempts), o)
      ensures s.gate.Refuse? ==> p.broker.calls == []
      ensures Resumes(row, q) && q.resolution.value.Some? ==>
        p.session.attempts != [] && p.session.attempts[0].id == q.resolution.value.value
    {
      var refusal := ResumeRefusal(q);
      if refusal.Some? {
        SettleAtOnce(refusal.value, followUp);
        return refusal.value;
      }
      o := ResumeOperation(row, q, s, p);
      begun, ended := begun + 1, ended + 1;
      SettleAtOnce(o, followUp);
    }

    /** A Resume drive: audited once however it ends; its provider round runs only past the invocation gate. */
    method ResumeAction(row: Row, followUp: bool, q: ResumeRequest, s: Surroundings, p: Parts) returns (o: Outcome)
      requires Valid() && StartsNothing(p) && (forall id :: s.hook(id))
      requires q.resolution.Some? ==> p.session.recorded == q.resolution.value
      modifies this, p.session, p.selection, p.record, p.lease, p.target, p.broker
      ensures Valid() && audit == old(audit) + [o] && started == old(started) + 1 && open == old(open)
      ensures begun - old(begun) == ended - old(ended)
      ensures followUps == old(followUps) + FollowUpOf(o, followUp, |old(audit)|)
      ensures p.lease.Balanced() && !p.lease.held
      // anything but a refusal means that every check held
      ensures
        p.broker.calls != [] || p.session.attempts != [] || p.target.promoted != old(p.target.promoted) ||
        p.lease.acquired != old(p.lease.acquired) ==>
          q.idWellFormed && q.loaded.Loaded? && q.loaded.bindingMatches && q.loaded.registered &&
          q.loaded.sameSemantics && q.loaded.eligible &&
          (q.loaded.posted.Answered? || q.loaded.posted.SettledByThis?) && q.loaded.answersKept &&
          q.loaded.snapshotReadable && q.loaded.inputValid && !q.cancelled
      // and when every check holds, the drive goes on: to a round if the task is free and the interaction settles
      ensures
        q.idWellFormed && q.loaded.Loaded? && q.loaded.bindingMatches && q.loaded.registered &&
        q.loaded.sameSemantics && q.loaded.eligible &&
        (q.loaded.posted.Answered? || q.loaded.posted.SettledByThis?) && q.loaded.answersKept &&
        q.loaded.snapshotReadable && q.loaded.inputValid && !q.cancelled ==>
          begun == old(begun) + 1 &&
          if row.needsLease && !q.startLeaseFree then o == DuplicateRejected
          else if q.resolution.None? then o == Failed(ResumeNotSettled, true, None, None, [])
          else
            p.session.attempts != [] &&
            Finished(Operation(row, None, [], true), s, View(p), p.selection.switchedOff, o)
      // otherwise the first check that fails decides
      ensures !q.idWellFormed ==> o == Failed(InvalidResumeIdempotencyId, false, None, None, [])
      ensures q.idWellFormed ==>
        match q.loaded
        case LoadStorageDown => o == Unavailable(WorkflowStorageUnavailable, None)
        case NotLoadable => o == RecoveryRequired
        case Loaded(binding, registered, semantics, eligible, posted, kept, readable, valid) =>
          (!binding ==> o == Failed(ResumeBindingMismatch, false, None, None, [])) &&
          (binding && !registered ==> o == Failed(ResumeActionUnavailable, false, None, None, [])) &&
          (binding && registered && !semantics ==> o == Failed(ResumeSemanticsChanged, false, None, None, [])) &&
          (binding && registered && semantics ==>
            (!eligible ==> o == Failed(NotEligible, false, None, None, [])) &&
            (eligible && posted.Unanswered? ==> o == Failed(AnswersNotSubmitted, false, None, None, [])) &&
            (eligible && posted.SettledByAnother? ==> o == Failed(InteractionAlreadySettled, false, None, None, [])) &&
            (eligible && (posted.Answered? || posted.SettledByThis?) ==>
              (!kept ==> o == Failed(AnswersNotSubmitted, false, None, None, [])) &&
              (kept && !readable ==> o == RecoveryRequired) &&
              (kept && readable && !valid ==> o == Failed(InvalidActionInput, false, None, None, [])) &&
              (kept && readable && valid && q.cancelled ==> o == Cancelled(true))))
      // a refusal takes nothing and runs nothing
      ensures ResumeRefusal(q).Some? ==> o == ResumeRefusal(q).value && begun == old(begun)
      ensures ResumeRefusal(q).None? && row.needsLease && !q.startLeaseFree ==> o == DuplicateRejected
      ensures ResumeRefusal(q).None? && !(row.needsLease && !q.startLeaseFree) && q.resolution.None? ==>
        o == Failure(ResumeNotSettled, true, None)
      ensures !Resumes(row, q) ==>
        unchanged(p.session, p.selection, p.record, p.target, p.broker) &&
        p.lease.acquired ==
          old(p.lease.acquired) +
          (if ResumeRefusal(q).None? && row.needsLease && q.startLeaseFree then 1 else 0)
      // a round, under exactly the recorded attempt where there is one, and no call past a refusing gate
      ensures Resumes(row, q) ==> Finished(Operation(row, None, [], true), s, View(p), p.selection.switchedOff, o)
      // the workflow task changes exactly when that round's own attempt completed
      ensures Resumes(row, q) ==>
        p.session.attempts != [] &&
        PromotedOnly(old(p.target.promoted), p.target.promoted, Last(p.session.attempts), o)
      ensures s.gate.Refuse? ==> p.broker.calls == []
      ensures Resumes(row, q) && q.resolution.value.Some? ==>
        p.session.attempts != [] && p.session.attempts[0].id == q.resolution.value.value
    {
      var refusal := ResumeRefusal(q);
      FirstFailedCheckRefuses(q, if refusal.Some? then refusal.value else RecoveryRequired);
      o := DriveResume(row, followUp, q, s, p);
    }
  }

  /** Does the request get as far as a provider round? */
  predicate Resumes(row: Row, q: ResumeRequest)
  {
    ResumeRefusal(q).None? && (row.needsLease ==> q.startLeaseFree) && q.resolution.Some?
  }

  // ---------- what the books mean ----------

  function CompletedCount(audit: seq<Outcome>): nat
  {
    if audit == [] then 0 else CompletedCount(audit[..|audit| - 1]) + (if Last(audit).Completed? then 1 else 0)
  }

  function WithoutLastIf(followUps: seq<nat>, n: nat): seq<nat>
  {
    if followUps != [] && Last(followUps) == n then followUps[..|followUps| - 1] else followUps
  }

  lemma BelowTheLast(followUps: seq<nat>, n: nat)
    requires Increasing(followUps, n + 1)
    ensures Increasing(WithoutLastIf(followUps, n), n)
    ensures forall k :: k in WithoutLastIf(followUps, n) ==> k in followUps
  {
    var rest := WithoutLastIf(followUps, n);
    forall i | 0 <= i < |rest|
      ensures rest[i] < n
    {
      assert rest[i] == followUps[i];
      assert i < |followUps| - 1 ==> followUps[i] < Last(followUps);
    }
  }

  lemma {:induction false} FollowUpsFit(audit: seq<Outcome>, followUps: seq<nat>)
    requires Increasing(followUps, |audit|) && (forall k :: k in followUps ==> audit[k].Completed?)
    ensures |followUps| <= CompletedCount(audit)
  {
    if followUps != [] {
      assert followUps[0] < |audit|;
      var n := |audit| - 1;
      BelowTheLast(followUps, n);
      FollowUpsFit(audit[..n], WithoutLastIf(followUps, n));
      assert Last(followUps) in followUps;
    }
  }

  /** When nothing is under way: every execution was audited once, progress is closed, and there are no more follow-ups
      than completed executions. */
  lemma BooksBalance(c: TaskActions)
    requires c.Valid() && c.open == {} && c.running == {}
    ensures |c.audit| == c.started && c.begun == c.ended && |c.followUps| <= CompletedCount(c.audit)
  {
    FollowUpsFit(c.audit, c.followUps);
  }

  // ---------- what an operation starts from and ends with ----------

  /** Newly opened session, selection, lease and broker. */
  ghost predicate StartsNothing(p: Parts)
    reads p.session, p.selection, p.lease, p.broker
  {
    p.session.Valid() && p.session.attempts == [] && p.selection.Valid() && p.selection.cursor == 0 &&
    p.lease.Balanced() && !p.lease.held && p.broker.calls == []
  }

  /** A row that cannot ask questions has no record; another one may meet any record under its operation id. */
  ghost predicate NewParts(row: Row, p: Parts)
    reads p.session, p.selection, p.lease, p.broker, p.record
  {
    StartsNothing(p) && (!row.AsksQuestions() ==> p.record.state.Absent?)
  }

  /** The follow-up an outcome schedules, named by its audit record. */
  function FollowUpOf(o: Outcome, declared: bool, record: nat): seq<nat>
  {
    if o.Completed? && declared then [record] else []
  }

  /** What a round's exit means for the execution. */
  function OutcomeOf(exit: Exit): Outcome
  {
    if exit.Returned? then exit.outcome else Failure(PreInvocationHookFailed, true, None)
  }

  /** The round is finished, or was interrupted by the caller's hook. */
  ghost predicate LogSettled(op: Operation, s: Surroundings, p: Parts, o: Outcome)
    reads p.session, p.selection, p.lease, p.broker
  {
    Ready(p) && p.session.attempts != [] &&
    if Last(p.session.attempts).outcome.None? then
      o == Failure(PreInvocationHookFailed, true, None) && Interrupted(op, s, View(p))
    else Finished(op, s, View(p), p.selection.switchedOff, o)
  }

  /** Posted exactly for questions; after a settle was tried, settled or else left pending; otherwise discarded, which
      may fail. */
  ghost predicate RecordSettled(op: Operation, s: Surroundings, state: RecordState, last: Attempt, o: Outcome,
                                settleTried: bool, discards: bool)
  {
    (state.Posted? <==> o.Questions?) && (settleTried <==> EndsRecord(op.row, s, last)) &&
    (settleTried ==>
      !o.Questions? && state == if s.settles(last.id) then Ended(o.Failed? && o.code.TransportFault?) else Pending) &&
    (!settleTried && !o.Questions? ==> state.Absent? || (state.Pending? && !discards && KeepsRecord(op)))
  }

  /** An operation's round is over and its pending record cleaned up. */
  ghost predicate RoundSettled(op: Operation, s: Surroundings, p: Parts, o: Outcome, settleTried: bool, discards: bool)
    reads p.session, p.selection, p.lease, p.broker, p.record
  {
    LogSettled(op, s, p, o) &&
    RecordSettled(op, s, p.record.state, Last(p.session.attempts), o, settleTried, discards)
  }

  /** The workflow task is changed exactly by a completed outcome, once. */
  ghost predicate PromotedOnce(p: Parts, before: seq<AttemptId>, o: Outcome)
    reads p.session, p.target
  {
    p.session.attempts != [] &&
    p.target.promoted == before + (if o.Completed? then [Last(p.session.attempts).id] else [])
  }

  /** The record once the execution has cleaned up after its round. */
  function CleanedUp(row: Row, before: RecordState, o: Outcome, settleTried: bool, discards: bool): RecordState
  {
    if !o.Questions? && row.AsksQuestions() && !settleTried && before.Pending? && discards then Absent else before
  }

  /** What a round that sent nothing reports is no result. */
  lemma UnsentEndsUnanswered(op: Operation, s: Surroundings, l: Ledger, switchedOff: seq<ModelId>, o: Outcome)
    requires l.attempts != [] && UnsentEnding(op, s, l, switchedOff, o)
    ensures !o.Completed?
  {
    if LastRejected(op, l).Some? && History(op, s, l) != [] {
      RoundResults.RejectedIsReport(op, l);
      RoundResults.ReportOfRejection(LastRejected(op, l).value, History(op, s, l));
    }
  }

  /** Only a refused Resume leaves its attempt open, and only a completed attempt completes. */
  lemma SettlesItsAttempt(op: Operation, s: Surroundings, l: Ledger, switchedOff: seq<ModelId>, o: Outcome)
    requires l.attempts != [] && SettlesAs(op, s, l, switchedOff, o) && !op.resumed
    ensures Last(l.attempts).outcome.Some?
    ensures o.Completed? ==> Last(l.attempts).outcome == Some(AttemptCompleted)
  {
    if Last(l.attempts).outcome == Some(UnavailableBeforeInvocation) {
      UnsentEndsUnanswered(op, s, l, switchedOff, o);
    }
  }

  lemma RoundLeaves(op: Operation, s: Surroundings, p: Parts, exit: Exit, settleTried: bool, discards: bool)
    requires RoundOver(op, s, p, exit, settleTried) && !op.resumed
    ensures LogSettled(op, s, p, OutcomeOf(exit))
    ensures
      var o := OutcomeOf(exit);
      var after := CleanedUp(op.row, p.record.state, o, settleTried, discards);
      RecordSettled(op, s, after, Last(p.session.attempts), o, settleTried, discards)
    ensures OutcomeOf(exit).Completed? ==> Last(p.session.attempts).outcome == Some(AttemptCompleted)
  {
    if exit.Returned? {
      SettlesItsAttempt(op, s, View(p), p.selection.switchedOff, exit.outcome);
    }
  }

  /** What an execution that reached its round leaves of its pending record, in the fields: a posted interaction exactly
      for questions; after a cancellation, or a deadline before any response, a settled record, or a pending one if it
      cannot be settled; otherwise none, or a pending one if it cannot be discarded. Without an outcome for its last
      attempt the execution failed in the caller's hook. */
  lemma RecordMeans(op: Operation, s: Surroundings, p: Parts, o: Outcome, settleTried: bool, discards: bool)
    requires RoundSettled(op, s, p, o, settleTried, discards)
    ensures
      var last, state := p.session.attempts[|p.session.attempts| - 1], p.record.state;
      var r := s.reply(last.id);
      var ends :=
        KindQuestions in op.row.permits && last.invoked && last.outcome.Some? &&
        (s.prepare(last.id).CancelledUnsent? ||
         (s.prepare(last.id).Prepared? &&
          (r.Cancellation? || (r.TransportFailure? && r.fault.InvocationDeadlineExceeded? && !r.responseStarted))));
      (state.Posted? <==> o.Questions?) && (settleTried <==> ends) &&
      (ends ==> state == if s.settles(last.id) then Ended(o.Failed? && o.code.TransportFault?) else Pending) &&
      (!ends && !o.Questions? ==>
        state.Absent? || (state.Pending? && !discards && !op.resumed && KindQuestions in op.row.permits))
    ensures
      var last := p.session.attempts[|p.session.attempts| - 1];
      last.outcome.None? ==> o == Failed(PreInvocationHookFailed, true, None, None, []) && !s.hook(last.id)
  {
  }

  method RunAdmitted(op: Operation, s: Surroundings, p: Parts, initial: Carried, discards: bool)
    returns (o: Outcome, settleTried: bool)
    requires !op.resumed && AtHead(op, s, p, StartRound(op, Some(initial)))
    modifies p.session, p.selection, p.record, p.lease, p.target, p.broker
    ensures RoundSettled(op, s, p, o, settleTried, discards) && PromotedOnce(p, old(p.target.promoted), o)
  {
    var exit;
    exit, settleTried := RunProviderRow(op, s, p, Some(initial));
    RoundLeaves(op, s, p, exit, settleTried, discards);
    o := OutcomeOf(exit);
    if !o.Questions? && op.row.AsksQuestions() && !settleTried {
      p.record.Discard(discards);
    }
  }

  /** The START lease phase of a Resume, released before its round. */
  method ResumeOperation(row: Row, q: ResumeRequest, s: Surroundings, p: Parts) returns (o: Outcome)
    requires ResumeRefusal(q).None? && StartsNothing(p) && (forall id :: s.hook(id))
    requires q.resolution.Some? ==> p.session.recorded == q.resolution.value
    modifies p.session, p.selection, p.record, p.lease, p.target, p.broker
    ensures p.lease.Balanced() && !p.lease.held
    ensures row.needsLease && !q.startLeaseFree ==> o == DuplicateRejected
    ensures !(row.needsLease && !q.startLeaseFree) && q.resolution.None? ==> o == Failure(ResumeNotSettled, true, None)
    ensures !Resumes(row, q) ==>
      unchanged(p.session, p.selection, p.record, p.target, p.broker) &&
      p.lease.acquired == old(p.lease.acquired) + (if row.needsLease && q.startLeaseFree then 1 else 0)
    ensures Resumes(row, q) ==> Finished(Operation(row, None, [], true), s, View(p), p.selection.switchedOff, o)
    ensures Resumes(row, q) ==>
      p.session.attempts != [] &&
      PromotedOnly(old(p.target.promoted), p.target.promoted, Last(p.session.attempts), o)
    ensures s.gate.Refuse? ==> p.broker.calls == []
    ensures Resumes(row, q) && q.resolution.value.Some? ==>
      p.session.attempts != [] && p.session.attempts[0].id == q.resolution.value.value
  {
    if row.needsLease {
      var acquired := p.lease.Acquire(q.startLeaseFree);
      if !acquired {
        return DuplicateRejected;
      }
    }
    EndPhase(row, p.lease);
    if q.resolution.None? {
      return Failure(ResumeNotSettled, true, None);
    }
    o := RunResumed(Operation(row, None, [], true), s, p);
  }

  method RunResumed(op: Operation, s: Surroundings, p: Parts) returns (o: Outcome)
    requires op.resumed && StartsNothing(p) && forall id :: s.hook(id)
    modifies p.session, p.selection, p.record, p.lease, p.target, p.broker
    ensures Finished(op, s, View(p), p.selection.switchedOff, o) && (s.gate.Refuse? ==> p.broker.calls == [])
    ensures p.session.attempts != []
    ensures PromotedOnly(old(p.target.promoted), p.target.promoted, Last(p.session.attempts), o)
    ensures p.session.Valid() && p.lease.Balanced() && !p.lease.held
  {
    StartsBetween(op, s, p);
    var exit, _ := RunProviderRow(op, s, p, None);
    o := exit.outcome;
  }

  lemma StartsBetween(op: Operation, s: Surroundings, p: Parts)
    requires StartsNothing(p)
    ensures Between(op, s, p, StartRound(op, None))
  {
    assert p.selection.ranked[..0] == [];
  }

  function OperationOf(r: Request): Operation { Operation(r.row, r.seed, r.prior, false) }

  /** Another operation holds the task. */
  predicate BusyElsewhere(r: Request) { r.row.needsLease && !r.startLeaseFree }

  /** The candidate in hand is refused before its attempt is claimed: its prompt cannot be assembled, an earlier send of
      the same message was completed or is on hold, or its record cannot be admitted. */
  ghost predicate RefusedInHand(s: Surroundings, earlier: Earlier, before: RecordState, last: Attempt, o: Outcome)
  {
    last.model.Some? && !last.claimed && !last.invoked &&
    if !s.assemble(last.id) then
      o == Failure(ToolSessionUnavailable, false, None) && last.outcome == Some(UnavailableBeforeInvocation)
    else
      match earlier
      case CompletedBefore => o == Completed(last.id) && last.outcome.None?
      case HeldBefore => o == Failure(IndeterminatePriorAttempt, false, None) && last.outcome.None?
      case NothingBefore =>
        o == AdmissionRefusal(s.admission(last.id)) && last.outcome == Some(UnavailableBeforeInvocation) &&
        !(s.admission(last.id).Lands? && Replaceable(before, s.discards(last.id)))
  }

  /** Why a provider row was not admitted: no candidate could be reserved, or the one in hand was refused. */
  ghost predicate AdmissionRefused(op: Operation, earlier: Earlier, s: Surroundings, p: Parts, before: RecordState,
                                   o: Outcome)
    reads p.session, p.selection, p.broker, p.lease
  {
    p.broker.calls == [] && p.session.attempts != [] &&
    (OverUnsent(op, s, p, o) ||
     (op.row.AsksQuestions() && RefusedInHand(s, earlier, before, Last(p.session.attempts), o)))
  }

  /** What settles an execution inside admission, by the first reason that applies. */
  ghost predicate SettledInAdmission(r: Request, s: Surroundings, p: Parts, before: RecordState, o: Outcome)
    reads p.session, p.selection, p.broker, p.lease
  {
    if EarlyRefusal(r).Some? then o == EarlyRefusal(r).value
    else if BusyElsewhere(r) then o == DuplicateRejected
    else if r.lifecycle.Some? then o == r.lifecycle.value
    else AdmissionRefused(OperationOf(r), r.earlier, s, p, before, o)
  }

  /** The START lease phase, released before any provider wait, and what admission does with a provider row. A
      lifecycle row's transition runs under the lease. */
  method StartOperation(r: Request, s: Surroundings, p: Parts)
    returns (settled: Option<Outcome>, initial: Option<Carried>)
    requires NewParts(r.row, p) && EarlyRefusal(r).None?
    modifies p.session, p.selection, p.record, p.lease
    ensures p.broker.calls == [] && p.lease.Balanced() && !p.lease.held
    ensures p.record.state in {Absent, old(p.record.state), Pending}
    ensures p.lease.acquired == old(p.lease.acquired) + (if r.row.needsLease && r.startLeaseFree then 1 else 0)
    ensures BusyElsewhere(r) || r.lifecycle.Some? ==> settled.Some?
    ensures settled.Some? ==> SettledInAdmission(r, s, p, old(p.record.state), settled.value)
    ensures settled.None? ==> initial.Some? && Startable(OperationOf(r), s, p, initial.value)
  {
    if r.row.needsLease {
      var acquired := p.lease.Acquire(r.startLeaseFree);
      if !acquired {
        return Some(DuplicateRejected), None;
      }
    }
    settled := r.lifecycle;  // a lifecycle row's own transition, under the lease
    EndPhase(r.row, p.lease);
    if settled.Some? {
      return settled, None;
    }
    settled, initial := AdmitOperation(OperationOf(r), r.earlier, s, p);
  }

  /** The checks, and then the start of the operation. */
  method Admit(r: Request, s: Surroundings, p: Parts) returns (settled: Option<Outcome>, initial: Option<Carried>)
    requires NewParts(r.row, p)
    modifies p.session, p.selection, p.record, p.lease
    ensures p.broker.calls == [] && p.lease.Balanced() && !p.lease.held
    ensures p.lease.acquired ==
      old(p.lease.acquired) + (if EarlyRefusal(r).None? && r.row.needsLease && r.startLeaseFree then 1 else 0)
    ensures EarlyRefusal(r).Some? || BusyElsewhere(r) || r.lifecycle.Some? ==> settled.Some?
    ensures settled.Some? ==> SettledInAdmission(r, s, p, old(p.record.state), settled.value)
    ensures settled.None? ==> initial.Some? && Startable(OperationOf(r), s, p, initial.value)
  {
    settled, initial := EarlyRefusal(r), None;
    if settled.None? {
      settled, initial := StartOperation(r, s, p);
    }
  }

  /** The end of a lease phase, if there was one. */
  method EndPhase(row: Row, lease: LeasePhases)
    requires lease.Balanced() && lease.held == row.needsLease
    modifies lease
    ensures lease.Balanced() && !lease.held && lease.acquired == old(lease.acquired)
  {
    if row.needsLease {
      lease.Release();
    }
  }

  /** Assemble the prompt and admit the record of a question-capable operation, unless an earlier send of the same
      message was completed or is on hold. */
  method AdmitQuestions(op: Operation, earlier: Earlier, s: Surroundings, p: Parts, v: Round, id: AttemptId,
                        model: ModelId)
    returns (refused: Option<Outcome>)
    requires Holding(op, s, p, v, id, model) && KeepsRecord(op)
    modifies p.session, p.record
    ensures refused.Some? ==>
      p.session.attempts != [] &&
      RefusedInHand(s, earlier, old(p.record.state), Last(p.session.attempts), refused.value)
    ensures p.record.state in {Absent, old(p.record.state), Pending}
    ensures refused.None? ==> Holding(op, s, p, v, id, model) && p.record.state.Pending? && s.assemble(id)
    ensures refused.None? ==> earlier.NothingBefore?
    // no tool session, an earlier send of the same message, or no record of it
    ensures
      var o := refused;
      if !s.assemble(id) then o == Some(Failed(ToolSessionUnavailable, false, None, None, []))
      else if earlier.CompletedBefore? then o == Some(Completed(id))
      else if earlier.HeldBefore? then o == Some(Failed(IndeterminatePriorAttempt, false, None, None, []))
      else
        match s.admission(id)
        case StorageDown => o == Some(Unavailable(WorkflowStorageUnavailable, None))
        case ContentRefused(sizeDriven) => o == Some(Failed(ChatTransactionRejected, !sizeDriven, None, None, []))
        case Lands =>
          if old(p.record.state).Absent? || (old(p.record.state).Pending? && s.discards(id)) then o.None?
          else o == Some(Failed(ChatTransactionRejected, true, None, None, []))
  {
    if !s.assemble(id) {
      p.session.ReportAttemptOutcome(id, UnavailableBeforeInvocation);
      return Some(Failure(ToolSessionUnavailable, false, None));
    }
    if earlier.CompletedBefore? {
      return Some(Completed(id));
    }
    if earlier.HeldBefore? {
      return Some(Failure(IndeterminatePriorAttempt, false, None));
    }
    refused := OpenRecord(op, s, p, id);
    if refused.Some? {
      p.session.ReportAttemptOutcome(id, UnavailableBeforeInvocation);
    }
  }

  /** The round with its first candidate reserved. */
  function FirstHand(op: Operation): Round { StartRound(op, None).(freshReserved := 1) }

  method PassOverHand(op: Operation, s: Surroundings, p: Parts, id: AttemptId, model: ModelId)
    requires Holding(op, s, p, FirstHand(op), id, model) && model in Passed(op, View(p)) && p.broker.calls == []
    modifies p.session
    ensures Between(op, s, p, StartRound(op, None))
  {
    PassOverTried(op, s, p, FirstHand(op), id, model);
    assert FirstHand(op).(freshReserved := 0) == StartRound(op, None);
  }

  /** Reserve the next candidate, unless it is unable to serve the mode or passed over. */
  method ReserveUsable(op: Operation, s: Surroundings, p: Parts)
    returns (refused: Option<Outcome>, hand: Option<Carried>)
    requires Between(op, s, p, StartRound(op, None)) && p.broker.calls == []
    modifies p.session, p.selection
    ensures refused.Some? ==> OverUnsent(op, s, p, refused.value)
    ensures refused.None? && hand.Some? ==>
      Holding(op, s, p, FirstHand(op), hand.value.id, hand.value.model) &&
      hand.value.model !in Passed(op, View(p))
    ensures refused.None? && hand.None? ==>
      Between(op, s, p, StartRound(op, None)) && p.selection.cursor > old(p.selection.cursor)
  {
    refused, hand := None, None;
    var r, v := ReserveFresh(op, s, p, StartRound(op, None));
    if r.StopReserving? {
      refused := Some(r.outcome);
    } else if r.GotHand? {
      if r.model in SkipOnRetry(op.prior, p.selection.CandidateCount()) {
        PassOverHand(op, s, p, r.id, r.model);
      } else {
        hand := Some(Carried(r.id, r.model, false));
      }
    }
  }

  /** Walk to the first candidate that is neither unable to serve the mode nor passed over. */
  method ReserveFirst(op: Operation, s: Surroundings, p: Parts)
    returns (refused: Option<Outcome>, hand: Option<Carried>)
    requires !op.resumed && StartsNothing(p)
    modifies p.session, p.selection
    ensures refused.Some? ==> OverUnsent(op, s, p, refused.value) && p.broker.calls == []
    ensures refused.None? ==>
      hand.Some? && Holding(op, s, p, FirstHand(op), hand.value.id, hand.value.model) &&
      hand.value.model !in Passed(op, View(p))
  {
    StartsBetween(op, s, p);
    refused, hand := None, None;
    while refused.None? && hand.None?
      invariant p.broker.calls == []
      invariant refused.Some? ==> OverUnsent(op, s, p, refused.value)
      invariant refused.None? && hand.None? ==> Between(op, s, p, StartRound(op, None))
      invariant refused.None? && hand.Some? ==>
        Holding(op, s, p, FirstHand(op), hand.value.id, hand.value.model) &&
        hand.value.model !in Passed(op, View(p))
      decreases refused.None? && hand.None?, |p.selection.ranked| - p.selection.cursor
    {
      refused, hand := ReserveUsable(op, s, p);
    }
  }

  /** The operation stands at the head of its attempt loop, with a candidate in hand that is not passed over. */
  ghost predicate Startable(op: Operation, s: Surroundings, p: Parts, initial: Carried)
    reads p.session, p.selection, p.broker, p.lease, p.record
  {
    AtHead(op, s, p, StartRound(op, Some(initial))) && initial.model !in Passed(op, View(p))
  }

  /** The candidate in hand is what the attempt loop starts from. */
  lemma HandIsHead(op: Operation, s: Surroundings, p: Parts, c: Carried)
    requires Holding(op, s, p, FirstHand(op), c.id, c.model) && RecordOpen(op, p.record.state, true)
    requires c.assembled ==> s.assemble(c.id)
    ensures AtHead(op, s, p, StartRound(op, Some(c)))
  {
  }

  /** Nothing was sent or failed before the first attempt. */
  lemma StartIsClean(op: Operation, s: Surroundings, l: Ledger, initial: Carried)
    requires Books(op, s, l, StartRound(op, Some(initial)), |l.calls|)
    ensures l.calls == [] && Entries(op.row, s, l.attempts) == []
  {
    assert |History(op, s, l)| == |op.prior| + |Entries(op.row, s, l.attempts)|;
  }

  /** The candidate an admitted operation starts with is the first of the ranking that can serve the mode and is not
      passed over: none of its records failed before any response, and unless it has none the press has tried as many
      models as there are candidates; each one before it has a record that makes the press pass it over. */
  lemma AdmittedIsFirst(op: Operation, s: Surroundings, p: Parts, initial: Carried) returns (n: nat)
    requires Startable(op, s, p, initial)
    ensures n < |p.selection.ranked| && p.selection.ranked[n] == Candidate(initial.model, true)
    ensures
      var ranked := p.selection.ranked;
      var tried := |set x | x in op.prior && x.model.Some? :: x.model.value|;
      var usable := |set c | c in ranked && c.supported :: c.model|;
      (forall r :: r in op.prior && r.model == Some(initial.model) ==> !r.skipOnRetry && tried >= usable) &&
      (forall k :: 0 <= k < n && ranked[k].supported ==>
        exists r :: r in op.prior && r.model == Some(ranked[k].model) && (r.skipOnRetry || tried < usable))
  {
    var l, ranked := View(p), p.selection.ranked;
    StartIsClean(op, s, l, initial);
    n := RoundResults.HandIsFirst(op, s, l, initial.model);
    RoundResults.SupportedAsSet(ranked);
    SkipOnRetryMeans(op.prior, Count(l), initial.model);
    forall k | 0 <= k < n && ranked[k].supported
      ensures
        var tried := |set x | x in op.prior && x.model.Some? :: x.model.value|;
        exists r :: r in op.prior && r.model == Some(ranked[k].model) && (r.skipOnRetry || tried < Count(l))
    {
      SkipOnRetryMeans(op.prior, Count(l), ranked[k].model);
    }
  }

  /** The candidate loop and the pending record of admission. */
  method AdmitOperation(op: Operation, earlier: Earlier, s: Surroundings, p: Parts)
    returns (refused: Option<Outcome>, initial: Option<Carried>)
    requires !op.resumed && NewParts(op.row, p)
    modifies p.session, p.selection, p.record
    ensures refused.Some? ==> AdmissionRefused(op, earlier, s, p, old(p.record.state), refused.value)
    ensures p.record.state in {Absent, old(p.record.state), Pending}
    ensures refused.None? ==> initial.Some? && Startable(op, s, p, initial.value)
  {
    initial := None;
    var hand;
    refused, hand := ReserveFirst(op, s, p);
    if refused.Some? {
      return;
    }
    var v, c := FirstHand(op), Carried(hand.value.id, hand.value.model, op.row.AsksQuestions());
    if op.row.AsksQuestions() {
      refused := AdmitQuestions(op, earlier, s, p, v, c.id, c.model);
    }
    if refused.None? {
      initial := Some(c);
      HandIsHead(op, s, p, c);
    }
  }
}
