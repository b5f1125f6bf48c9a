/** Explicit Resume of a structured-question interaction: the durable transaction, its invocation-claim marker, and any
    number of drives of one editor window that run against them in any interleaving, with a crash or a storage failure
    allowed at every step (src/actions/actionConversationOrchestratorV1.ts,
    src/services/chatInteractionTransactionStoreV1.ts, `executeResume` in src/actions/taskActionCoordinatorV1.ts).
    Every mutation of the record is one step here, as the store serializes them within a window; ResumeWindows splits
    them, and says what is left across windows. */
module ResumeProtocol {
  import opened Wrappers

  /** A 128-bit identity. */
  type Id = nat

  type DriveId = nat

  // ---------- the durable record ----------

  /** `Unanswered` stands for questionsPosted and answersDraft. */
  datatype State = Unanswered | AnswersSubmitted | ResumeScheduled | Settled

  datatype Semantics = KeepOperation | ReplaceOperation

  datatype Resolution = SameOperation(newAttemptId: Id) | Replacement(operationId: Id)

  /** What a provider run ended with; only an outcome that carries a correlation tuple can be recorded. */
  datatype Outcome = Outcome(content: nat, correlated: bool)

  /** Settled without a resolution means cancelled, expired or reset. */
  datatype Record = Record(
    semantics: Semantics,
    state: State,
    resumeId: Option<Id>,
    resolution: Option<Resolution>,
    claimMirrored: bool,
    outcome: Option<Outcome>)

  function ResolutionFor(semantics: Semantics, newId: Id): Resolution
  {
    if semantics.KeepOperation? then SameOperation(newId) else Replacement(newId)
  }

  /** scheduleResume: a no-op for the recorded id, otherwise only from submitted answers. */
  function Schedule(r: Record, id: Id): Option<Record>
  {
    if r.resumeId.Some? then
      if r.resumeId.value == id && r.state.ResumeScheduled? then Some(r) else None
    else if r.state.AnswersSubmitted? then Some(r.(state := ResumeScheduled, resumeId := Some(id)))
    else None
  }

  /** settleResumed: only a scheduled Resume settles, and only with the declared kind. */
  function SettleResumed(r: Record, resolution: Resolution): Option<Record>
  {
    if r.state.ResumeScheduled? && resolution.SameOperation? == r.semantics.KeepOperation? then
      Some(r.(state := Settled, resolution := Some(resolution)))
    else None
  }

  /** recordResumeInvocationOutcome: only a mirrored claim, only the first correlated outcome. */
  function RecordOutcome(r: Record, outcome: Outcome): Option<Record>
  {
    if r.state.Settled? && r.resolution.Some? && r.claimMirrored && r.outcome.None? && outcome.correlated then
      Some(r.(outcome := Some(outcome)))
    else None
  }

  // ---------- drives ----------

  datatype Refusal =
    | AnswersNotSubmitted
    | InteractionAlreadySettled
    | ResumeNotSettled
    | ClaimFailed
    | AlreadyClaimed
    | Faulted

  datatype Result =
    | Returned(outcome: Outcome)   // this drive ran the provider
    | Recovered(outcome: Outcome)  // another drive's recorded outcome
    | Refused(why: Refusal)

  /** Where a drive stands; each constructor is one point between two atomic accesses to the store. */
  datatype Place =
    | Loading(id: Id)
    | Resolving(id: Id)
    | Scheduling(chosen: Id)
    | Settling(chosen: Id, proposed: Resolution)
    | Resolved(resolution: Resolution)
    | Claiming(resolution: Resolution)
    | Marking(resolution: Resolution)
    | Mirroring(resolution: Resolution)
    | Invoking(resolution: Resolution)
    | Recording(resolution: Resolution, outcome: Outcome)
    | Done(result: Result)
    | Crashed

  predicate Active(p: Place) { !p.Done? && !p.Crashed? }

  /** The resolution that `resolveResume` returned to a drive, once it has. */
  function Holds(p: Place): Option<Resolution>
  {
    match p
    case Resolved(r) => Some(r)
    case Claiming(r) => Some(r)
    case Marking(r) => Some(r)
    case Mirroring(r) => Some(r)
    case Invoking(r) => Some(r)
    case Recording(r, _) => Some(r)
    case _ => None
  }

  /** The attempt a drive's selection session starts under, when the resolution fixes it. */
  function FirstAttempt(p: Place): Option<Id>
  {
    if Holds(p).Some? && Holds(p).value.SameOperation? then Some(Holds(p).value.newAttemptId) else None
  }

  /** `marker` is the exclusively created claim file; who created it, and the two logs below it, are
      bookkeeping that no drive reads. */
  datatype World = World(
    record: Record,
    minted: set<Id>,
    drives: map<DriveId, Place>,
    marker: Option<DriveId>,
    invoked: seq<DriveId>,       // drives that went past the claim gate, in order
    produced: seq<Outcome>)      // what their provider runs ended with

  // ---------- steps ----------

  datatype Label =
    | Start(d: DriveId, id: Id)
    | Go(d: DriveId, newId: Id, outcome: Outcome)  // the drive's next step works
    | Fault(d: DriveId, landed: bool)              // it fails, with or without its write having landed
    | Crash(d: DriveId)
    | SubmitAnswers
    | Close                                        // cancel, expire or reset

  predicate Enabled(w: World, l: Label)
  {
    match l
    case Start(d, _) => d !in w.drives
    case Go(d, newId, _) => d in w.drives && Active(w.drives[d]) && (w.drives[d].Scheduling? ==> newId !in w.minted)
    case Fault(d, _) => d in w.drives && Active(w.drives[d]) && !w.drives[d].Invoking?
    case Crash(d) => d in w.drives && Active(w.drives[d])
    case SubmitAnswers => w.record.state.Unanswered?
    case Close => !w.record.state.Settled?
  }

  /** The checks `executeResume` makes on the loaded record. */
  function AfterLoad(r: Record, id: Id): Place
  {
    if r.state.Unanswered? then Done(Refused(AnswersNotSubmitted))
    else if r.state.Settled? && (r.resolution.None? || r.resumeId != Some(id)) then
      Done(Refused(InteractionAlreadySettled))
    else Resolving(id)
  }

  /** `resolveResume` on the record it loads: replay, refuse, or schedule under the recorded id if there is one. */
  function AfterResolveLoad(r: Record, id: Id): Place
  {
    if r.state.Settled? then
      if r.resumeId == Some(id) && r.resolution.Some? then Resolved(r.resolution.value)
      else Done(Refused(ResumeNotSettled))
    else Scheduling(if r.state.ResumeScheduled? && r.resumeId.Some? then r.resumeId.value else id)
  }

  /** The claim gate on the record it loads. */
  function AfterClaimLoad(r: Record, resolution: Resolution): Place
  {
    if !r.state.Settled? || r.resolution.None? then Done(Refused(ClaimFailed))
    else if r.claimMirrored then
      if r.outcome.Some? then Done(Recovered(r.outcome.value)) else Done(Refused(AlreadyClaimed))
    else Marking(resolution)
  }

  function Put(w: World, d: DriveId, p: Place): World { w.(drives := w.drives[d := p]) }

  function Go1(w: World, d: DriveId, newId: Id, outcome: Outcome): World
    requires d in w.drives
  {
    match w.drives[d]
    case Loading(id) => Put(w, d, AfterLoad(w.record, id))
    case Resolving(id) => Put(w, d, AfterResolveLoad(w.record, id))
    case Scheduling(chosen) =>
      var scheduled := Schedule(w.record, chosen);
      if scheduled.None? then Put(w, d, Done(Refused(ResumeNotSettled)))
      else Put(w, d, Settling(chosen, ResolutionFor(w.record.semantics, newId)))
           .(record := scheduled.value, minted := w.minted + {newId})
    case Settling(chosen, resolution) =>
      var settled := SettleResumed(w.record, resolution);
      if settled.None? then Put(w, d, Done(Refused(ResumeNotSettled)))
      else Put(w, d, Resolved(resolution)).(record := settled.value)
    case Resolved(r) => Put(w, d, Claiming(r))
    case Claiming(r) => Put(w, d, AfterClaimLoad(w.record, r))
    case Marking(r) =>
      if w.marker.Some? then Put(w, d, Done(Refused(AlreadyClaimed)))
      else Put(w, d, Mirroring(r)).(marker := Some(d))
    case Mirroring(r) =>
      Put(w, d, Invoking(r)).(record := w.record.(claimMirrored := true), invoked := w.invoked + [d])
    case Invoking(r) => Put(w, d, Recording(r, outcome)).(produced := w.produced + [outcome])
    case Recording(_, o) =>
      var recorded := RecordOutcome(w.record, o);
      Put(w, d, Done(Returned(o))).(record := if recorded.Some? then recorded.value else w.record)
    case _ => w
  }

  /** A failed step: the drive is refused, except that a lost mirror or a lost outcome record only loses the write. */
  function Fault1(w: World, d: DriveId, landed: bool): World
    requires d in w.drives
  {
    var refused := Put(w, d, Done(Refused(Faulted)));
    match w.drives[d]
    case Scheduling(chosen) =>
      var scheduled := Schedule(w.record, chosen);
      if landed && scheduled.Some? then refused.(record := scheduled.value) else refused
    case Settling(_, resolution) =>
      var settled := SettleResumed(w.record, resolution);
      if landed && settled.Some? then refused.(record := settled.value) else refused
    case Marking(_) => if landed && w.marker.None? then refused.(marker := Some(d)) else refused
    case Mirroring(r) =>
      Put(w, d, Invoking(r)).(invoked := w.invoked + [d],
                              record := if landed then w.record.(claimMirrored := true) else w.record)
    case Recording(_, o) =>
      var recorded := RecordOutcome(w.record, o);
      Put(w, d, Done(Returned(o))).(record := if landed && recorded.Some? then recorded.value else w.record)
    case _ => refused
  }

  function Apply(w: World, l: Label): World
    requires Enabled(w, l)
  {
    match l
    case Start(d, id) => Put(w, d, Loading(id))
    case Go(d, newId, outcome) => Go1(w, d, newId, outcome)
    case Fault(d, landed) => Fault1(w, d, landed)
    case Crash(d) => Put(w, d, Crashed)
    case SubmitAnswers => w.(record := w.record.(state := AnswersSubmitted))
    case Close => w.(record := w.record.(state := Settled))
  }

  predicate Initial(w: World)
  {
    w.record == Record(w.record.semantics, Unanswered, None, None, false, None) &&
    w.drives == map[] && w.marker == None && w.invoked == [] && w.produced == []
  }

  ghost predicate Legal(w: World, ls: seq<Label>)
    decreases |ls|
  {
    ls == [] || (Enabled(w, ls[0]) && Legal(Apply(w, ls[0]), ls[1..]))
  }

  ghost function After(w: World, ls: seq<Label>): World
    requires Legal(w, ls)
    decreases |ls|
  {
    if ls == [] then w else After(Apply(w, ls[0]), ls[1..])
  }

  // ---------- what every step keeps ----------

  ghost predicate RecordInv(w: World)
  {
    var r := w.record;
    (r.state.Unanswered? || r.state.AnswersSubmitted? ==> r.resumeId.None?) &&
    (r.state.ResumeScheduled? ==> r.resumeId.Some?) &&
    (r.resolution.Some? ==> r.state.Settled? && r.resumeId.Some?) &&
    (r.resolution.Some? ==> (r.resolution.value.SameOperation? <==> r.semantics.KeepOperation?)) &&
    (r.claimMirrored ==> w.marker.Some?) &&
    (w.marker.Some? ==> r.resolution.Some?) &&
    (r.outcome.Some? ==> r.claimMirrored && r.outcome.value.correlated && w.produced == [r.outcome.value])
  }

  ghost predicate LogInv(w: World)
  {
    (w.invoked == [] || (w.marker.Some? && w.invoked == [w.marker.value])) &&
    |w.produced| <= |w.invoked| &&
    (w.marker.Some? ==> w.marker.value in w.drives)
  }

  /** What holds while drive `d` stands at `p`; of the world it looks at everything but the drives. */
  ghost predicate PlaceInv(w: World, d: DriveId, p: Place)
  {
    (Holds(p).Some? ==> w.record.resolution == Holds(p)) &&
    (p.Mirroring? ==> w.marker == Some(d) && w.invoked == []) &&
    (p.Invoking? ==> w.marker == Some(d) && w.invoked == [d] && w.produced == []) &&
    (p.Recording? ==> w.marker == Some(d) && w.invoked == [d] && w.produced == [p.outcome] && w.record.outcome.None?) &&
    (p.Done? && p.result.Returned? ==> w.invoked == [d] && w.produced == [p.result.outcome]) &&
    (p.Done? && p.result.Recovered? ==> w.record.outcome == Some(p.result.outcome) && w.invoked != [d]) &&
    (p.Done? && p.result.Refused? ==> w.invoked != [d]) &&
    (Early(p) ==> w.invoked != [d] && w.marker != Some(d))
  }

  /** The places before the marker. */
  predicate Early(p: Place) { Active(p) && !p.Mirroring? && !p.Invoking? && !p.Recording? }

  /** The invariant for every drive but `a`. */
  ghost predicate InvExcept(w: World, a: DriveId)
  {
    RecordInv(w) && LogInv(w) && forall d :: d in w.drives && d != a ==> PlaceInv(w, d, w.drives[d])
  }

  ghost predicate Inv(w: World)
  {
    RecordInv(w) && LogInv(w) && forall d :: d in w.drives ==> PlaceInv(w, d, w.drives[d])
  }

  /** Facts that no later step can undo. */
  ghost predicate Keeps(w: World, w': World)
  {
    (w.record.resolution.Some? ==> w'.record.resolution == w.record.resolution) &&
    (w.record.resumeId.Some? ==> w'.record.resumeId == w.record.resumeId) &&
    (w.record.outcome.Some? ==> w'.record.outcome == w.record.outcome) &&
    (w.marker.Some? ==> w'.marker == w.marker) &&
    (w.record.state.Settled? ==> w'.record.state.Settled? && w'.record.resolution == w.record.resolution) &&
    w.invoked <= w'.invoked && w.produced <= w'.produced && w'.record.semantics == w.record.semantics
  }

  lemma Placed(w: World, a: DriveId, p: Place)
    requires InvExcept(w, a) && PlaceInv(w, a, p)
    ensures Inv(Put(w, a, p))
  {
    var w' := Put(w, a, p);
    forall d | d in w'.drives
      ensures PlaceInv(w', d, w'.drives[d])
    {
      assert PlaceInv(w, d, w'.drives[d]);
    }
  }

  lemma ScheduleKeepsInv(w: World, d: DriveId, chosen: Id, r: Record)
    requires Inv(w) && Schedule(w.record, chosen) == Some(r)
    ensures InvExcept(w.(record := r), d) && Keeps(w, w.(record := r)) && r.resolution == w.record.resolution
  {
    var w' := w.(record := r);
    forall e | e in w.drives
      ensures PlaceInv(w', e, w.drives[e])
    {
      assert PlaceInv(w, e, w.drives[e]);
    }
  }

  lemma SettleKeepsInv(w: World, d: DriveId, resolution: Resolution, r: Record)
    requires Inv(w) && SettleResumed(w.record, resolution) == Some(r)
    ensures InvExcept(w.(record := r), d) && Keeps(w, w.(record := r)) && r.resolution == Some(resolution)
  {
    var w' := w.(record := r);
    forall e | e in w.drives
      ensures PlaceInv(w', e, w.drives[e])
    {
      assert PlaceInv(w, e, w.drives[e]);
    }
  }

  lemma MarkKeepsInv(w: World, d: DriveId)
    requires Inv(w) && d in w.drives && w.drives[d].Marking? && w.marker.None?
    ensures InvExcept(w.(marker := Some(d)), d) && Keeps(w, w.(marker := Some(d)))
  {
    var w' := w.(marker := Some(d));
    assert PlaceInv(w, d, w.drives[d]);
    forall e | e in w.drives && e != d
      ensures PlaceInv(w', e, w.drives[e])
    {
      assert PlaceInv(w, e, w.drives[e]);
    }
  }

  lemma GatePassKeepsInv(w: World, d: DriveId, mirrored: bool)
    requires Inv(w) && d in w.drives && w.drives[d].Mirroring?
    ensures
      var w' := w.(invoked := w.invoked + [d],
                   record := if mirrored then w.record.(claimMirrored := true) else w.record);
      InvExcept(w', d) && Keeps(w, w') && PlaceInv(w', d, Invoking(w.drives[d].resolution))
  {
    var w' := w.(invoked := w.invoked + [d], record := if mirrored then w.record.(claimMirrored := true) else w.record);
    assert PlaceInv(w, d, w.drives[d]);
    assert w'.invoked == [d] && forall e :: [d] == [e] ==> [d][0] == e;
    forall e | e in w.drives && e != d
      ensures PlaceInv(w', e, w.drives[e])
    {
      assert PlaceInv(w, e, w.drives[e]);
    }
  }

  lemma ProduceKeepsInv(w: World, d: DriveId, outcome: Outcome)
    requires Inv(w) && d in w.drives && w.drives[d].Invoking?
    ensures
      var w' := w.(produced := w.produced + [outcome]);
      InvExcept(w', d) && Keeps(w, w') && PlaceInv(w', d, Recording(w.drives[d].resolution, outcome))
  {
    var w' := w.(produced := w.produced + [outcome]);
    assert PlaceInv(w, d, w.drives[d]);
    forall e | e in w.drives && e != d
      ensures PlaceInv(w', e, w.drives[e])
    {
      assert PlaceInv(w, e, w.drives[e]);
    }
  }

  lemma RecordKeepsInv(w: World, d: DriveId, landed: bool)
    requires Inv(w) && d in w.drives && w.drives[d].Recording?
    ensures
      var recorded := RecordOutcome(w.record, w.drives[d].outcome);
      var w' := w.(record := if landed && recorded.Some? then recorded.value else w.record);
      InvExcept(w', d) && Keeps(w, w') && PlaceInv(w', d, Done(Returned(w.drives[d].outcome)))
  {
    var recorded := RecordOutcome(w.record, w.drives[d].outcome);
    var w' := w.(record := if landed && recorded.Some? then recorded.value else w.record);
    assert PlaceInv(w, d, w.drives[d]);
    forall e | e in w.drives && e != d
      ensures PlaceInv(w', e, w.drives[e])
    {
      assert PlaceInv(w, e, w.drives[e]);
    }
  }

  lemma ResolutionStepKeepsInv(w: World, d: DriveId, newId: Id)
    requires Inv(w) && d in w.drives && (w.drives[d].Scheduling? || w.drives[d].Settling?)
    ensures
      var w' := Go1(w, d, newId, Outcome(0, false));
      Inv(w') && Keeps(w, w')
  {
    var w' := Go1(w, d, newId, Outcome(0, false));
    var p' := w'.drives[d];
    assert PlaceInv(w, d, w.drives[d]);
    match w.drives[d]
    case Scheduling(chosen) =>
      var scheduled := Schedule(w.record, chosen);
      if scheduled.Some? {
        ScheduleKeepsInv(w, d, chosen, scheduled.value);
        Placed(w.(record := scheduled.value, minted := w'.minted), d, p');
      } else {
        Placed(w, d, p');
      }
    case Settling(_, resolution) =>
      var settled := SettleResumed(w.record, resolution);
      if settled.Some? {
        SettleKeepsInv(w, d, resolution, settled.value);
        Placed(w.(record := settled.value), d, p');
      } else {
        Placed(w, d, p');
      }
  }

  /** Steps that only move the drive. */
  lemma ReadStepKeepsInv(w: World, d: DriveId, p: Place)
    requires Inv(w) && d in w.drives
    requires
      match w.drives[d]
      case Loading(id) => p == AfterLoad(w.record, id)
      case Resolving(id) => p == AfterResolveLoad(w.record, id)
      case Resolved(r) => p == Claiming(r)
      case Claiming(r) => p == AfterClaimLoad(w.record, r)
      case Marking(_) => p == Done(Refused(AlreadyClaimed))
      case _ => false
    ensures Inv(Put(w, d, p)) && Keeps(w, Put(w, d, p))
  {
    assert PlaceInv(w, d, w.drives[d]);
    Placed(w, d, p);
  }

  lemma ClaimStepKeepsInv(w: World, d: DriveId, outcome: Outcome)
    requires Inv(w) && d in w.drives && Active(w.drives[d]) && !w.drives[d].Scheduling? && !w.drives[d].Settling?
    ensures
      var w' := Go1(w, d, 0, outcome);
      Inv(w') && Keeps(w, w')
  {
    var w' := Go1(w, d, 0, outcome);
    var p' := w'.drives[d];
    if w.drives[d].Mirroring? {
      GatePassKeepsInv(w, d, true);
      Placed(w.(record := w'.record, invoked := w'.invoked), d, p');
    } else if w.drives[d].Invoking? {
      ProduceKeepsInv(w, d, outcome);
      Placed(w.(produced := w'.produced), d, p');
    } else if w.drives[d].Recording? {
      RecordKeepsInv(w, d, true);
      Placed(w.(record := w'.record), d, p');
    } else if w.drives[d].Marking? && w.marker.None? {
      MarkKeepsInv(w, d);
      Placed(w.(marker := Some(d)), d, p');
    } else {
      ReadStepKeepsInv(w, d, p');
    }
  }

  lemma GoKeepsInv(w: World, d: DriveId, newId: Id, outcome: Outcome)
    requires Inv(w) && d in w.drives && Active(w.drives[d])
    ensures Inv(Go1(w, d, newId, outcome)) && Keeps(w, Go1(w, d, newId, outcome))
  {
    if w.drives[d].Scheduling? || w.drives[d].Settling? {
      ResolutionStepKeepsInv(w, d, newId);
    } else {
      ClaimStepKeepsInv(w, d, outcome);
    }
  }

  /** A refused drive fits any world in which it did not go past the gate. */
  lemma Refuse(w: World, d: DriveId)
    requires InvExcept(w, d) && w.invoked != [d]
    ensures Inv(Put(w, d, Done(Refused(Faulted))))
  {
    Placed(w, d, Done(Refused(Faulted)));
  }

  lemma EarlyFaultKeepsInv(w: World, d: DriveId, landed: bool)
    requires Inv(w) && d in w.drives && Early(w.drives[d])
    ensures Inv(Fault1(w, d, landed)) && Keeps(w, Fault1(w, d, landed))
  {
    assert PlaceInv(w, d, w.drives[d]);
    Refuse(w, d);
    if landed {
      match w.drives[d]
      case Scheduling(chosen) =>
        var scheduled := Schedule(w.record, chosen);
        if scheduled.Some? {
          ScheduleKeepsInv(w, d, chosen, scheduled.value);
          Refuse(w.(record := scheduled.value), d);
        }
      case Settling(_, resolution) =>
        var settled := SettleResumed(w.record, resolution);
        if settled.Some? {
          SettleKeepsInv(w, d, resolution, settled.value);
          Refuse(w.(record := settled.value), d);
        }
      case Marking(_) =>
        if w.marker.None? {
          MarkKeepsInv(w, d);
          Refuse(w.(marker := Some(d)), d);
        }
      case _ =>
    }
  }

  lemma FaultKeepsInv(w: World, d: DriveId, landed: bool)
    requires Inv(w) && d in w.drives && Active(w.drives[d]) && !w.drives[d].Invoking?
    ensures Inv(Fault1(w, d, landed)) && Keeps(w, Fault1(w, d, landed))
  {
    var w' := Fault1(w, d, landed);
    match w.drives[d]
    case Mirroring(_) =>
      GatePassKeepsInv(w, d, landed);
      Placed(w.(record := w'.record, invoked := w'.invoked), d, w'.drives[d]);
    case Recording(_, _) =>
      RecordKeepsInv(w, d, landed);
      Placed(w.(record := w'.record), d, w'.drives[d]);
    case _ =>
      EarlyFaultKeepsInv(w, d, landed);
  }

  lemma StepKeepsInv(w: World, l: Label)
    requires Inv(w) && Enabled(w, l)
    ensures Inv(Apply(w, l)) && Keeps(w, Apply(w, l))
  {
    match l
    case Go(d, newId, outcome) => GoKeepsInv(w, d, newId, outcome);
    case Fault(d, landed) => FaultKeepsInv(w, d, landed);
    case Start(d, id) => Placed(w, d, Loading(id));
    case Crash(d) => Placed(w, d, Crashed);
    case _ =>
      var w' := Apply(w, l);
      forall e | e in w.drives
        ensures PlaceInv(w', e, w.drives[e])
      {
        assert PlaceInv(w, e, w.drives[e]);
      }
  }

  lemma {:induction false} RunKeepsInv(w: World, ls: seq<Label>)
    requires Inv(w) && Legal(w, ls)
    ensures Inv(After(w, ls)) && Keeps(w, After(w, ls))
    decreases |ls|
  {
    if ls != [] {
      StepKeepsInv(w, ls[0]);
      RunKeepsInv(Apply(w, ls[0]), ls[1..]);
    }
  }

  // ---------- the promises ----------

  /** In every interleaving with every pattern of crashes and failures, at most one drive ever goes past the
      claim gate, and only once the transaction is settled with a resolution. */
  lemma InvokedAtMostOnce(w: World, ls: seq<Label>)
    requires Initial(w) && Legal(w, ls)
    ensures
      var v := After(w, ls);
      |v.invoked| <= 1 && |v.produced| <= |v.invoked| &&
      (v.invoked != [] ==> v.record.state.Settled? && v.record.resolution.Some?)
  {
    RunKeepsInv(w, ls);
  }

  /** Whoever goes past the gate does so in a world that is already settled. */
  lemma NeverInvokedBeforeSettled(w: World, ls: seq<Label>, l: Label)
    requires Initial(w) && Legal(w, ls) && Enabled(After(w, ls), l)
    requires Apply(After(w, ls), l).invoked != After(w, ls).invoked
    ensures After(w, ls).record.state.Settled? && After(w, ls).record.resolution.Some? && After(w, ls).invoked == []
  {
    RunKeepsInv(w, ls);
    StepKeepsInv(After(w, ls), l);
  }

  /** Once a drive has taken the claim, no other drive ever goes past the gate, whatever follows. */
  lemma ClaimShutsOutAllOthers(w: World, ls: seq<Label>, more: seq<Label>, d: DriveId)
    requires Initial(w) && Legal(w, ls) && Legal(After(w, ls), more)
    requires After(w, ls).marker.Some? && d != After(w, ls).marker.value
    ensures d !in After(After(w, ls), more).invoked
  {
    RunKeepsInv(w, ls);
    RunKeepsInv(After(w, ls), more);
  }

  /** How every drive ends: the one that went past the gate returns its own provider outcome, every other one
      either returns the outcome that is durably recorded, which is the one the provider produced, or is refused. */
  lemma HowADriveEnds(w: World, ls: seq<Label>, d: DriveId)
    requires Initial(w) && Legal(w, ls)
    requires d in After(w, ls).drives && After(w, ls).drives[d].Done?
    ensures
      var v := After(w, ls);
      match v.drives[d].result
      case Returned(o) => v.invoked == [d] && v.produced == [o]
      case Recovered(o) => d !in v.invoked && v.record.outcome == Some(o) && v.produced == [o]
      case Refused(_) => d !in v.invoked
  {
    RunKeepsInv(w, ls);
    assert PlaceInv(After(w, ls), d, After(w, ls).drives[d]);
  }

  /** A drive that reaches the gate after the outcome was recorded returns exactly that outcome; one that finds the
      claim made and no outcome is refused for good. Neither gets to invoke. */
  lemma GateAfterClaim(w: World, ls: seq<Label>, d: DriveId, newId: Id, outcome: Outcome)
    requires Initial(w) && Legal(w, ls)
    requires d in After(w, ls).drives && (After(w, ls).drives[d].Claiming? || After(w, ls).drives[d].Marking?)
    requires After(w, ls).marker.Some?
    requires After(w, ls).drives[d].Claiming? ==> After(w, ls).record.claimMirrored
    ensures
      var v := After(w, ls);
      Go1(v, d, newId, outcome).drives[d] ==
        Done(if v.drives[d].Claiming? && v.record.outcome.Some? then Recovered(v.record.outcome.value)
             else Refused(AlreadyClaimed))
  {
    RunKeepsInv(w, ls);
  }

  /** Over a whole history an interaction has one resolution: what `resolveResume` returned to any drive at any
      time is what it returned to any other at any later time, and every drive that resumes the same operation
      starts under the same recorded attempt. */
  lemma OneResolution(w: World, ls: seq<Label>, more: seq<Label>, d: DriveId, e: DriveId)
    requires Initial(w) && Legal(w, ls) && Legal(After(w, ls), more)
    requires d in After(w, ls).drives && e in After(After(w, ls), more).drives
    requires Holds(After(w, ls).drives[d]).Some? && Holds(After(After(w, ls), more).drives[e]).Some?
    ensures
      var p, q := After(w, ls).drives[d], After(After(w, ls), more).drives[e];
      Holds(p) == Holds(q) == After(After(w, ls), more).record.resolution && FirstAttempt(p) == FirstAttempt(q)
  {
    RunKeepsInv(w, ls);
    RunKeepsInv(After(w, ls), more);
    assert PlaceInv(After(w, ls), d, After(w, ls).drives[d]);
    assert PlaceInv(After(After(w, ls), more), e, After(After(w, ls), more).drives[e]);
  }

  // ---------- the rules of a drive ----------

  /** Every working step of a drive in every reachable world, by the fields of the record it finds. An unanswered
      interaction is refused, and a settled one under any id but the recorded one; a scheduled one goes on under the
      recorded id. The resolution is of the declared kind. A claim that is already mirrored never invokes again, and
      only a correlated outcome is recorded. */
  lemma HowADriveMoves(w: World, ls: seq<Label>, d: DriveId, newId: Id, outcome: Outcome)
    requires Initial(w) && Legal(w, ls) && Enabled(After(w, ls), Go(d, newId, outcome))
    ensures
      var v, v' := After(w, ls), Apply(After(w, ls), Go(d, newId, outcome));
      var r, p := v.record, v'.drives[d];
      v'.drives == v.drives[d := p] && v'.record.semantics == r.semantics &&
      match v.drives[d]
      case Loading(id) =>
        v' == v.(drives := v'.drives) &&
        p == (if r.state.Unanswered? then Done(Refused(AnswersNotSubmitted))
              else if r.state.Settled? && (r.resolution.None? || r.resumeId != Some(id)) then
                Done(Refused(InteractionAlreadySettled))
              else Resolving(id))
      case Resolving(id) =>
        v' == v.(drives := v'.drives) &&
        p == (if !r.state.Settled? then Scheduling(if r.resumeId.Some? then r.resumeId.value else id)
              else if r.resolution.Some? && r.resumeId == Some(id) then Resolved(r.resolution.value)
              else Done(Refused(ResumeNotSettled)))
      case Scheduling(chosen) =>
        if r.state.AnswersSubmitted? || (r.state.ResumeScheduled? && r.resumeId == Some(chosen)) then
          v' == v.(drives := v'.drives, record := r.(state := ResumeScheduled, resumeId := Some(chosen)),
                   minted := v.minted + {newId}) &&
          p == Settling(chosen, if r.semantics.KeepOperation? then SameOperation(newId) else Replacement(newId))
        else v' == v.(drives := v'.drives) && p == Done(Refused(ResumeNotSettled))
      case Settling(_, resolution) =>
        if r.state.ResumeScheduled? && (resolution.SameOperation? <==> r.semantics.KeepOperation?) then
          v' == v.(drives := v'.drives, record := r.(state := Settled, resolution := Some(resolution))) &&
          p == Resolved(resolution)
        else v' == v.(drives := v'.drives) && p == Done(Refused(ResumeNotSettled))
      case Resolved(resolution) => v' == v.(drives := v'.drives) && p == Claiming(resolution)
      case Claiming(resolution) =>
        v' == v.(drives := v'.drives) &&
        p == (if !r.claimMirrored then Marking(resolution)
              else if r.outcome.Some? then Done(Recovered(r.outcome.value))
              else Done(Refused(AlreadyClaimed)))
      case Marking(resolution) =>
        if v.marker.Some? then v' == v.(drives := v'.drives) && p == Done(Refused(AlreadyClaimed))
        else v' == v.(drives := v'.drives, marker := Some(d)) && p == Mirroring(resolution)
      case Mirroring(resolution) =>
        v' == v.(drives := v'.drives, record := r.(claimMirrored := true), invoked := v.invoked + [d]) &&
        p == Invoking(resolution)
      case Invoking(resolution) =>
        v' == v.(drives := v'.drives, produced := v.produced + [outcome]) && p == Recording(resolution, outcome)
      case Recording(_, o) =>
        v' == v.(drives := v'.drives,
                 record := if o.correlated && r.claimMirrored then r.(outcome := Some(o)) else r) &&
        p == Done(Returned(o))
      case _ => false
  {
    RunKeepsInv(w, ls);
    var v := After(w, ls);
    assert PlaceInv(v, d, v.drives[d]);
  }

  /** A failing step writes what the working one would have written, or nothing. A lost mirror of the claim does not
      keep its drive from invoking, and a lost record of an outcome does not keep it from returning it; any other
      failure refuses the drive. */
  lemma HowAStepFails(w: World, ls: seq<Label>, d: DriveId, landed: bool)
    requires Initial(w) && Legal(w, ls) && Enabled(After(w, ls), Fault(d, landed))
    ensures
      var v, v' := After(w, ls), Apply(After(w, ls), Fault(d, landed));
      var works := Go1(v, d, 0, Outcome(0, false));
      v'.drives == v.drives[d := v'.drives[d]] && v'.minted == v.minted && v'.produced == v.produced &&
      v'.record == (if landed then works.record else v.record) &&
      v'.marker == (if landed then works.marker else v.marker) &&
      v'.invoked == (if v.drives[d].Mirroring? then v.invoked + [d] else v.invoked) &&
      v'.drives[d] ==
        match v.drives[d]
        case Mirroring(resolution) => Invoking(resolution)
        case Recording(_, o) => Done(Returned(o))
        case _ => Done(Refused(Faulted))
  {
  }

  /** The recorded resolution is of the kind the interaction declared: it keeps the operation or replaces it. */
  lemma ResolutionIsAsDeclared(w: World, ls: seq<Label>)
    requires Initial(w) && Legal(w, ls) && After(w, ls).record.resolution.Some?
    ensures After(w, ls).record.semantics == w.record.semantics
    ensures After(w, ls).record.resolution.value.SameOperation? <==> w.record.semantics.KeepOperation?
  {
    RunKeepsInv(w, ls);
  }

  /** What the store accepts: scheduling submitted answers, or once more under the recorded id; a settlement of a
      scheduled Resume with the declared kind; and the first correlated outcome of a mirrored claim. */
  lemma WhatTheStoreAccepts(r: Record, id: Id, resolution: Resolution, outcome: Outcome)
    ensures Schedule(r, id).Some? <==>
      (r.resumeId.None? && r.state.AnswersSubmitted?) || (r.resumeId == Some(id) && r.state.ResumeScheduled?)
    ensures SettleResumed(r, resolution).Some? <==>
      r.state.ResumeScheduled? && (resolution.SameOperation? <==> r.semantics.KeepOperation?)
    ensures RecordOutcome(r, outcome).Some? <==>
      r.state.Settled? && r.resolution.Some? && r.claimMirrored && r.outcome.None? && outcome.correlated
  {
  }

  // ---------- fault-free drives ----------

  /** Only this drive moves, and every one of its steps works. */
  ghost predicate Solo(d: DriveId, ls: seq<Label>)
  {
    forall l :: l in ls ==> (l.Start? || l.Go?) && l.d == d
  }

  lemma {:induction false} LegalOn(w: World, ls: seq<Label>, more: seq<Label>)
    requires Legal(w, ls) && Legal(After(w, ls), more)
    ensures Legal(w, ls + more) && After(w, ls + more) == After(After(w, ls), more)
    decreases |ls|
  {
    if ls == [] {
      assert ls + more == more;
    } else {
      LegalOn(Apply(w, ls[0]), ls[1..], more);
      assert (ls + more)[1..] == ls[1..] + more;
    }
  }

  lemma OneMoreStep(w: World, ls: seq<Label>, l: Label)
    requires Legal(w, ls) && Enabled(After(w, ls), l)
    ensures Legal(w, ls + [l]) && After(w, ls + [l]) == Apply(After(w, ls), l)
  {
    assert [l][1..] == [];
    assert Legal(Apply(After(w, ls), l), []);
    LegalOn(w, ls, [l]);
  }

  /** One working step of a drive that is under way. */
  lemma Advance(w: World, d: DriveId, ls: seq<Label>, newId: Id) returns (ls': seq<Label>)
    requires Legal(w, ls) && Solo(d, ls)
    requires d in After(w, ls).drives && Active(After(w, ls).drives[d])
    requires After(w, ls).drives[d].Scheduling? ==> newId !in After(w, ls).minted
    ensures Legal(w, ls') && Solo(d, ls') && After(w, ls') == Go1(After(w, ls), d, newId, Outcome(0, false))
  {
    var l := Go(d, newId, Outcome(0, false));
    OneMoreStep(w, ls, l);
    ls' := ls + [l];
  }

  lemma {:induction false} UnusedId(used: set<Id>) returns (id: Id)
    ensures id !in used && forall x :: x in used ==> x < id
    decreases used
  {
    if used == {} {
      id := 0;
    } else {
      var x :| x in used;
      var bound := UnusedId(used - {x});
      id := if bound <= x then x + 1 else bound;
      assert forall y :: y in used ==> y == x || y in used - {x};
    }
  }

  /** Is the interaction still one that may be resumed under `id`? */
  predicate Resumable(r: Record, id: Id)
  {
    r.state.AnswersSubmitted? || r.state.ResumeScheduled? ||
    (r.state.Settled? && r.resolution.Some? && r.resumeId == Some(id))
  }

  /** A fault-free drive loads a resumable record twice, and changes nothing by that. */
  lemma LoadsAlone(w: World, d: DriveId, id: Id) returns (ls: seq<Label>)
    requires d !in w.drives && Resumable(w.record, id)
    ensures Legal(w, ls) && Solo(d, ls) && After(w, ls) == Put(w, d, AfterResolveLoad(w.record, id))
  {
    var start := Start(d, id);
    OneMoreStep(w, [], start);
    ls := [] + [start];
    ls := Advance(w, d, ls, 0);
    assert After(w, ls).drives[d] == Resolving(id);
    ls := Advance(w, d, ls, 0);
    assert After(w, ls).drives == Put(w, d, AfterResolveLoad(w.record, id)).drives;
  }

  /** A fault-free drive gets as far as holding the resolution. */
  lemma ResolvesAlone(w: World, d: DriveId, id: Id) returns (ls: seq<Label>)
    requires Inv(w) && d !in w.drives && Resumable(w.record, id)
    ensures Legal(w, ls) && Solo(d, ls)
    ensures
      var v := After(w, ls);
      d in v.drives && v.record.resolution.Some? && v.drives[d] == Resolved(v.record.resolution.value) &&
      v.marker == w.marker && v.invoked == w.invoked &&
      v.record.resumeId == Some(if w.record.resumeId.Some? then w.record.resumeId.value else id)
  {
    ls := LoadsAlone(w, d, id);
    assert After(w, ls).record == w.record;
    if !w.record.state.Settled? {
      var newId := UnusedId(w.minted);
      ls := Advance(w, d, ls, newId);
      assert After(w, ls).drives[d].Settling? && After(w, ls).record.state.ResumeScheduled?;
      ls := Advance(w, d, ls, 0);
    }
  }

  /** From there it passes the claim gate, as long as nobody holds the claim. */
  lemma ClaimsAlone(w: World, d: DriveId) returns (ls: seq<Label>)
    requires Inv(w) && d in w.drives && w.drives[d].Resolved? && w.marker.None?
    ensures Legal(w, ls) && Solo(d, ls)
    ensures d in After(w, ls).drives && After(w, ls).drives[d].Invoking? && After(w, ls).invoked == [d]
  {
    assert PlaceInv(w, d, w.drives[d]);
    var r := w.drives[d].resolution;
    ls := Advance(w, d, [], 0);
    ls := Advance(w, d, ls, 0);
    var v := After(w, ls);
    assert v == Put(w, d, Marking(r));
    var rest := TakesMarker(v, d);
    LegalOn(w, ls, rest);
    ls := ls + rest;
  }

  lemma TakesMarker(w: World, d: DriveId) returns (ls: seq<Label>)
    requires d in w.drives && w.drives[d].Marking? && w.marker.None? && w.invoked == []
    ensures Legal(w, ls) && Solo(d, ls)
    ensures d in After(w, ls).drives && After(w, ls).drives[d].Invoking? && After(w, ls).invoked == [d]
  {
    ls := Advance(w, d, [], 0);
    assert After(w, ls).drives[d].Mirroring?;
    ls := Advance(w, d, ls, 0);
  }

  /** No crash and no failure before the claim strands an answered interaction: from every reachable world in
      which the claim is not taken, a fault-free drive reaches the invocation boundary, under any id while the
      interaction is unsettled and under the recorded id once it is settled. */
  lemma NothingStrandsBeforeTheClaim(w: World, ls: seq<Label>, d: DriveId, id: Id) returns (rest: seq<Label>)
    requires Initial(w) && Legal(w, ls)
    requires d !in After(w, ls).drives && After(w, ls).marker.None? && Resumable(After(w, ls).record, id)
    ensures Legal(After(w, ls), rest) && Solo(d, rest)
    ensures d in After(After(w, ls), rest).drives && After(After(w, ls), rest).drives[d].Invoking?
    ensures After(After(w, ls), rest).invoked == [d]
  {
    RunKeepsInv(w, ls);
    var v := After(w, ls);
    rest := ResolvesAlone(v, d, id);
    RunKeepsInv(v, rest);
    var claim := ClaimsAlone(After(v, rest), d);
    LegalOn(v, rest, claim);
    rest := rest + claim;
  }

  /** From a settled interaction a fault-free drive gets a resolution exactly under the recorded id, and then it is
      the recorded one; under every other id it is turned away before `resolveResume`. */
  lemma OnlyTheRecordedIdReplays(w: World, ls: seq<Label>, d: DriveId, id: Id)
    requires Initial(w) && Legal(w, ls) && After(w, ls).record.state.Settled? && d !in After(w, ls).drives
    ensures
      var v := After(w, ls);
      var replays := v.record.resolution.Some? && v.record.resumeId == Some(id);
      var loaded := Go1(Put(v, d, Loading(id)), d, 0, Outcome(0, false));
      (loaded.drives[d] == Done(Refused(InteractionAlreadySettled)) <==> !replays) &&
      (Holds(Go1(loaded, d, 0, Outcome(0, false)).drives[d]).Some? <==> replays) &&
      (replays ==> Holds(Go1(loaded, d, 0, Outcome(0, false)).drives[d]) == v.record.resolution)
  {
    RunKeepsInv(w, ls);
  }

  /** A drive that finds the interaction scheduled under another id resumes it under that recorded id, so its own id
      can never replay: only the recorded one still gets the resolution. */
  lemma AdoptingDriveCannotReplayItself(w: World, ls: seq<Label>, d: DriveId, own: Id) returns (rest: seq<Label>)
    requires Initial(w) && Legal(w, ls) && d !in After(w, ls).drives
    requires After(w, ls).record.state.ResumeScheduled? && After(w, ls).record.resumeId != Some(own)
    ensures Legal(After(w, ls), rest) && Solo(d, rest)
    ensures
      var v := After(After(w, ls), rest);
      d in v.drives && v.drives[d].Resolved? && v.record.resumeId == After(w, ls).record.resumeId &&
      v.record.resumeId.Some? && v.record.state.Settled? &&
      AfterLoad(v.record, own) == Done(Refused(InteractionAlreadySettled)) &&
      AfterResolveLoad(v.record, v.record.resumeId.value) == v.drives[d]
  {
    RunKeepsInv(w, ls);
    rest := ResolvesAlone(After(w, ls), d, own);
    RunKeepsInv(After(w, ls), rest);
  }

  /** The claim is what can strand it: a drive that dies between the claim and its provider run leaves every later
      drive refused, and nothing was ever invoked. */
  lemma ADeathRightAfterTheClaimIsFinal(w: World, ls: seq<Label>, more: seq<Label>)
    requires Initial(w) && Legal(w, ls) && Legal(After(w, ls), more)
    requires
      var v := After(w, ls);
      v.marker.Some? && v.invoked == [] && v.marker.value in v.drives && !Active(v.drives[v.marker.value])
    ensures After(After(w, ls), more).invoked == []
  {
    RunKeepsInv(w, ls);
    var v := After(w, ls);
    DeadOwnerRun(v, more);
  }

  ghost predicate DeadOwner(w: World)
  {
    w.marker.Some? && w.marker.value in w.drives && !Active(w.drives[w.marker.value]) && w.invoked == []
  }

  lemma {:induction false} DeadOwnerRun(w: World, ls: seq<Label>)
    requires Inv(w) && DeadOwner(w) && Legal(w, ls)
    ensures DeadOwner(After(w, ls))
    decreases |ls|
  {
    if ls != [] {
      var w' := Apply(w, ls[0]);
      StepKeepsInv(w, ls[0]);
      assert forall d :: d in w.drives ==> PlaceInv(w, d, w.drives[d]);
      assert DeadOwner(w');
      DeadOwnerRun(w', ls[1..]);
    }
  }
}
