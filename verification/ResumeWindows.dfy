/** Explicit Resume from several editor windows at once. The store serializes the mutations of a record within one
    window only; across windows its revision check and its replacement of the record are two steps, so an update can
    be lost (src/services/chatInteractionTransactionStoreV1.ts). The exclusive claim marker still lets only one drive
    invoke; the drives of one window behave as in ResumeProtocol. */
module ResumeWindows {
  import opened Wrappers
  import opened ResumeProtocol

  type WindowId = nat

  // ---------- the shared store ----------

  /** A replacement of the record that passed its revision check: what it was computed from, and what it will write.
      Without an owner it submits answers or closes the interaction. */
  datatype Pending = Pending(owner: Option<DriveId>, base: Record, next: Record)

  /** `window` says where each drive runs; a window has at most one replacement under way. `seen`: the drives whose
      claim found the record settled with a resolution; nobody reads it. */
  datatype Store = Store(
    record: Record,
    minted: set<Id>,
    drives: map<DriveId, Place>,
    window: map<DriveId, WindowId>,
    pending: map<WindowId, Pending>,
    marker: Option<DriveId>,
    invoked: seq<DriveId>,
    produced: seq<Outcome>,
    seen: set<DriveId>)

  /** The places at which a drive replaces the record. */
  predicate Mutates(p: Place) { p.Scheduling? || p.Settling? || p.Mirroring? || p.Recording? }

  function NextRecord(r: Record, p: Place): Option<Record>
    requires Mutates(p)
  {
    match p
    case Scheduling(chosen) => Schedule(r, chosen)
    case Settling(_, resolution) => SettleResumed(r, resolution)
    case Mirroring(_) => Some(r.(claimMirrored := true))
    case Recording(_, o) => RecordOutcome(r, o)
  }

  /** Where the drive goes on; only a scheduled Resume needs a new identity. */
  function NextPlace(p: Place, semantics: Semantics, newId: Id): Place
    requires Mutates(p)
  {
    match p
    case Scheduling(chosen) => Settling(chosen, ResolutionFor(semantics, newId))
    case Settling(_, resolution) => Resolved(resolution)
    case Mirroring(r) => Invoking(r)
    case Recording(_, o) => Done(Returned(o))
  }

  /** Where it goes on when the store rejects the mutation. */
  function RejectedPlace(p: Place): Place
    requires Mutates(p)
  {
    match p
    case Recording(_, o) => Done(Returned(o))
    case _ => Done(Refused(ResumeNotSettled))
  }

  /** Where it goes on when the mutation fails: a lost mirror or a lost outcome record only loses the write. */
  function FailedPlace(p: Place): Place
  {
    match p
    case Mirroring(r) => Invoking(r)
    case Recording(_, o) => Done(Returned(o))
    case _ => Done(Refused(Faulted))
  }

  // ---------- steps ----------

  datatype Move =
    | Open(d: DriveId, id: Id, win: WindowId)
    | Look(d: DriveId, outcome: Outcome)        // a step that replaces nothing
    | Check(d: DriveId, newId: Id)              // the first half of a mutation: load, and compare the revision
    | CheckEvent(win: WindowId, close: bool)    // the same for an answer submission or a closing
    | Land(win: WindowId, newId: Id)            // the second half: replace the record
    | Fail(d: DriveId, landed: bool)
    | Drop(win: WindowId)                       // an event's replacement fails
    | Die(d: DriveId)

  predicate Free(w: Store, win: WindowId) { win !in w.pending }

  /** Has this drive a replacement under way? */
  predicate Writing(w: Store, d: DriveId)
  {
    d in w.window && w.window[d] in w.pending && w.pending[w.window[d]].owner == Some(d)
  }

  predicate Can(w: Store, m: Move)
  {
    match m
    case Open(d, _, _) => d !in w.drives
    case Look(d, _) => d in w.drives && Active(w.drives[d]) && !Mutates(w.drives[d])
    case Check(d, newId) =>
      d in w.drives && d in w.window && Mutates(w.drives[d]) && Free(w, w.window[d]) &&
      (w.drives[d].Scheduling? ==> newId !in w.minted)
    case CheckEvent(win, close) =>
      Free(w, win) && if close then !w.record.state.Settled? else w.record.state.Unanswered?
    case Land(win, newId) =>
      win in w.pending &&
      (w.pending[win].owner.Some? ==>
        var d := w.pending[win].owner.value;
        d in w.drives && Mutates(w.drives[d]) && (w.drives[d].Scheduling? ==> newId !in w.minted))
    case Fail(d, landed) =>
      d in w.drives && Active(w.drives[d]) && !w.drives[d].Invoking? &&
      (landed ==> Writing(w, d) || w.drives[d].Marking?)
    case Drop(win) => win in w.pending && w.pending[win].owner.None?
    case Die(d) => d in w.drives && Active(w.drives[d])
  }

  function Stand(w: Store, d: DriveId, p: Place): Store { w.(drives := w.drives[d := p]) }

  /** No replacement of this drive is under way any more. */
  function Cleared(w: Store, d: DriveId): Store
  {
    if Writing(w, d) then w.(pending := w.pending - {w.window[d]}) else w
  }

  /** A mutation of drive `d` is done, with this record. */
  function Finish(w: Store, d: DriveId, newId: Id, r: Record): Store
    requires d in w.drives && Mutates(w.drives[d])
  {
    var p := w.drives[d];
    Stand(w, d, NextPlace(p, w.record.semantics, newId))
    .(record := r, minted := if p.Scheduling? then w.minted + {newId} else w.minted,
      invoked := if p.Mirroring? then w.invoked + [d] else w.invoked)
  }

  function LookOnce(w: Store, d: DriveId, outcome: Outcome): Store
    requires d in w.drives
  {
    match w.drives[d]
    case Loading(id) => Stand(w, d, AfterLoad(w.record, id))
    case Resolving(id) => Stand(w, d, AfterResolveLoad(w.record, id))
    case Resolved(r) => Stand(w, d, Claiming(r))
    case Claiming(r) =>
      Stand(w, d, AfterClaimLoad(w.record, r))
      .(seen := if w.record.state.Settled? && w.record.resolution.Some? then w.seen + {d} else w.seen)
    case Marking(r) =>
      if w.marker.Some? then Stand(w, d, Done(Refused(AlreadyClaimed)))
      else Stand(w, d, Mirroring(r)).(marker := Some(d))
    case Invoking(r) => Stand(w, d, Recording(r, outcome)).(produced := w.produced + [outcome])
    case _ => w
  }

  /** A mutation that changes nothing writes nothing. */
  function CheckOnce(w: Store, d: DriveId, newId: Id): Store
    requires d in w.drives && d in w.window && Mutates(w.drives[d])
  {
    var next := NextRecord(w.record, w.drives[d]);
    if next.None? then Stand(w, d, RejectedPlace(w.drives[d]))
    else if next.value == w.record then Finish(w, d, newId, w.record)
    else w.(pending := w.pending[w.window[d] := Pending(Some(d), w.record, next.value)])
  }

  function LandOnce(w: Store, win: WindowId, newId: Id): Store
    requires Can(w, Land(win, newId))
  {
    var p := w.pending[win];
    var done := if p.owner.Some? then Finish(w, p.owner.value, newId, p.next) else w.(record := p.next);
    done.(pending := w.pending - {win})
  }

  function FailOnce(w: Store, d: DriveId, landed: bool): Store
    requires Can(w, Fail(d, landed))
  {
    var p := w.drives[d];
    var failed :=
      Cleared(Stand(w, d, FailedPlace(p)), d).(invoked := if p.Mirroring? then w.invoked + [d] else w.invoked);
    if !landed then failed
    else if p.Marking? then if w.marker.None? then failed.(marker := Some(d)) else failed
    else failed.(record := w.pending[w.window[d]].next)
  }

  function Do(w: Store, m: Move): Store
    requires Can(w, m)
  {
    match m
    case Open(d, id, win) => Stand(w, d, Loading(id)).(window := w.window[d := win])
    case Look(d, outcome) => LookOnce(w, d, outcome)
    case Check(d, newId) => CheckOnce(w, d, newId)
    case CheckEvent(win, close) =>
      var next := w.record.(state := if close then Settled else AnswersSubmitted);
      w.(pending := w.pending[win := Pending(None, w.record, next)])
    case Land(win, newId) => LandOnce(w, win, newId)
    case Fail(d, landed) => FailOnce(w, d, landed)
    case Drop(win) => w.(pending := w.pending - {win})
    case Die(d) => Cleared(Stand(w, d, Crashed), d)
  }

  predicate Fresh(w: Store)
  {
    w.record == Record(w.record.semantics, Unanswered, None, None, false, None) && w.drives == map[] &&
    w.window == map[] && w.pending == map[] && w.marker == None && w.invoked == [] && w.produced == [] && w.seen == {}
  }

  ghost predicate Runs(w: Store, ms: seq<Move>)
    decreases |ms|
  {
    ms == [] || (Can(w, ms[0]) && Runs(Do(w, ms[0]), ms[1..]))
  }

  ghost function End(w: Store, ms: seq<Move>): Store
    requires Runs(w, ms)
    decreases |ms|
  {
    if ms == [] then w else End(Do(w, ms[0]), ms[1..])
  }

  // ---------- what every step keeps, whatever the windows do ----------

  /** A record that is stored or about to be. */
  ghost predicate RecordOk(w: Store, r: Record)
  {
    (r.claimMirrored ==> w.marker.Some?) && (r.outcome.Some? ==> w.produced == [r.outcome.value])
  }

  ghost predicate LogOk(w: Store)
  {
    (w.invoked == [] || (w.marker.Some? && w.invoked == [w.marker.value])) && |w.produced| <= |w.invoked| &&
    (w.marker.Some? ==> w.marker.value in w.drives && w.marker.value in w.seen)
  }

  ghost predicate PlaceOk(w: Store, d: DriveId, p: Place)
  {
    (p.Marking? ==> d in w.seen) &&
    (p.Mirroring? ==> w.marker == Some(d) && w.invoked == []) &&
    (p.Invoking? ==> w.marker == Some(d) && w.invoked == [d] && w.produced == []) &&
    (p.Recording? ==> w.marker == Some(d) && w.invoked == [d] && w.produced == [p.outcome]) &&
    (p.Done? && p.result.Returned? ==> w.invoked == [d] && w.produced == [p.result.outcome]) &&
    (p.Done? && p.result.Recovered? ==> w.invoked != [d] && w.produced == [p.result.outcome]) &&
    (p.Done? && p.result.Refused? ==> w.invoked != [d]) &&
    (Early(p) ==> w.invoked != [d] && w.marker != Some(d))
  }

  ghost predicate PendingOk(w: Store, win: WindowId)
    requires win in w.pending
  {
    var p := w.pending[win];
    RecordOk(w, p.next) &&
    (p.owner.Some? ==>
      p.owner.value in w.drives && Mutates(w.drives[p.owner.value]) && p.owner.value in w.window &&
      w.window[p.owner.value] == win)
  }

  ghost predicate Safe(w: Store)
  {
    RecordOk(w, w.record) && LogOk(w) && w.drives.Keys == w.window.Keys &&
    (forall d :: d in w.drives ==> PlaceOk(w, d, w.drives[d])) &&
    (forall win :: win in w.pending ==> PendingOk(w, win))
  }

  /** Only a drive that mutates has a replacement under way. */
  lemma IdleIsNotWriting(w: Store, d: DriveId)
    requires Safe(w) && d in w.drives && !Mutates(w.drives[d])
    ensures !Writing(w, d)
  {
    assert w.window[d] in w.pending ==> PendingOk(w, w.window[d]);
  }

  /** The drive stands somewhere else; of the rest at most `seen` grew and pendings went. */
  lemma StandsElsewhere(w: Store, w': Store, d: DriveId)
    requires Safe(w) && d in w.drives && d in w'.drives
    requires w'.drives == w.drives[d := w'.drives[d]] && w'.window == w.window
    requires w'.marker == w.marker && w'.invoked == w.invoked && w'.produced == w.produced && w.seen <= w'.seen
    requires w'.pending.Keys <= w.pending.Keys && forall win :: win in w'.pending ==> w'.pending[win] == w.pending[win]
    requires RecordOk(w', w'.record) && PlaceOk(w', d, w'.drives[d])
    requires Mutates(w'.drives[d]) || !Mutates(w.drives[d]) || !Writing(w', d)
    ensures Safe(w')
  {
    forall win | win in w'.pending
      ensures PendingOk(w', win)
    {
      assert PendingOk(w, win);
    }
    forall e | e in w'.drives && e != d
      ensures PlaceOk(w', e, w'.drives[e])
    {
      assert PlaceOk(w, e, w.drives[e]);
    }
  }

  lemma LookSafe(w: Store, d: DriveId, outcome: Outcome)
    requires Safe(w) && Can(w, Look(d, outcome)) && !w.drives[d].Marking? && !w.drives[d].Invoking?
    ensures Safe(LookOnce(w, d, outcome))
  {
    assert PlaceOk(w, d, w.drives[d]);
    StandsElsewhere(w, LookOnce(w, d, outcome), d);
  }

  lemma MarkSafe(w: Store, d: DriveId, p: Place)
    requires Safe(w) && d in w.drives && w.drives[d].Marking? && w.marker.None?
    requires p.Mirroring? || p == Done(Refused(Faulted))
    ensures Safe(Stand(w, d, p).(marker := Some(d)))
  {
    var w' := Stand(w, d, p).(marker := Some(d));
    assert PlaceOk(w, d, w.drives[d]);
    forall e | e in w'.drives && e != d
      ensures PlaceOk(w', e, w'.drives[e])
    {
      assert PlaceOk(w, e, w.drives[e]);
    }
    forall win | win in w'.pending
      ensures PendingOk(w', win)
    {
      assert PendingOk(w, win);
    }
  }

  lemma ProduceSafe(w: Store, d: DriveId, outcome: Outcome)
    requires Safe(w) && d in w.drives && w.drives[d].Invoking?
    ensures Safe(LookOnce(w, d, outcome))
  {
    var w' := LookOnce(w, d, outcome);
    assert PlaceOk(w, d, w.drives[d]);
    forall e | e in w'.drives && e != d
      ensures PlaceOk(w', e, w'.drives[e])
    {
      assert PlaceOk(w, e, w.drives[e]);
    }
    forall win | win in w'.pending
      ensures PendingOk(w', win)
    {
      assert PendingOk(w, win);
    }
  }

  /** A record that a drive may write. */
  lemma NextRecordOk(w: Store, d: DriveId)
    requires Safe(w) && d in w.drives && Mutates(w.drives[d]) && NextRecord(w.record, w.drives[d]).Some?
    ensures RecordOk(w, NextRecord(w.record, w.drives[d]).value)
  {
    assert PlaceOk(w, d, w.drives[d]);
  }

  /** The gate is passed, or a mutation is otherwise done or given up; what is stored is in order. */
  lemma GoesOn(w: Store, w': Store, d: DriveId)
    requires Safe(w) && d in w.drives && Mutates(w.drives[d]) && w'.window == w.window
    requires d in w'.drives && w'.drives == w.drives[d := w'.drives[d]]
    requires w'.marker == w.marker && w'.produced == w.produced && w'.seen == w.seen
    requires w'.invoked == if w.drives[d].Mirroring? then w.invoked + [d] else w.invoked
    requires w'.pending.Keys <= w.pending.Keys && forall win :: win in w'.pending ==> w'.pending[win] == w.pending[win]
    requires !Writing(w', d) && RecordOk(w', w'.record) && PlaceOk(w', d, w'.drives[d])
    ensures Safe(w')
  {
    assert PlaceOk(w, d, w.drives[d]);
    assert w.drives[d].Mirroring? ==> w'.invoked == [d] && forall e :: [d] == [e] ==> [d][0] == e;
    forall e | e in w'.drives && e != d
      ensures PlaceOk(w', e, w'.drives[e])
    {
      assert PlaceOk(w, e, w.drives[e]);
    }
    forall win | win in w'.pending
      ensures PendingOk(w', win)
    {
      assert PendingOk(w, win);
    }
  }

  lemma GoneOn(w: Store, d: DriveId, newId: Id, p: Place)
    requires Safe(w) && d in w.drives && Mutates(w.drives[d])
    requires p == NextPlace(w.drives[d], w.record.semantics, newId) || p == FailedPlace(w.drives[d])
    ensures
      var w' := w.(invoked := if w.drives[d].Mirroring? then w.invoked + [d] else w.invoked);
      PlaceOk(w', d, p)
  {
    assert PlaceOk(w, d, w.drives[d]);
  }

  lemma CheckSafe(w: Store, d: DriveId, newId: Id)
    requires Safe(w) && Can(w, Check(d, newId))
    ensures Safe(CheckOnce(w, d, newId))
  {
    var w', p := CheckOnce(w, d, newId), w.drives[d];
    var next := NextRecord(w.record, p);
    assert PlaceOk(w, d, p);
    if next.None? {
      StandsElsewhere(w, w', d);
    } else if next.value == w.record {
      GoneOn(w, d, newId, NextPlace(p, w.record.semantics, newId));
      GoesOn(w, w', d);
    } else {
      NextRecordOk(w, d);
      forall win | win in w'.pending
        ensures PendingOk(w', win)
      {
        if win != w.window[d] {
          assert PendingOk(w, win);
        }
      }
      forall e | e in w'.drives
        ensures PlaceOk(w', e, w'.drives[e])
      {
        assert PlaceOk(w, e, w.drives[e]);
      }
    }
  }

  lemma LandSafe(w: Store, win: WindowId, newId: Id)
    requires Safe(w) && Can(w, Land(win, newId))
    ensures Safe(LandOnce(w, win, newId))
  {
    var w', p := LandOnce(w, win, newId), w.pending[win];
    assert PendingOk(w, win);
    if p.owner.Some? {
      var d := p.owner.value;
      GoneOn(w, d, newId, NextPlace(w.drives[d], w.record.semantics, newId));
      GoesOn(w, w', d);
    } else {
      forall k | k in w'.pending
        ensures PendingOk(w', k)
      {
        assert PendingOk(w, k);
      }
      forall e | e in w'.drives
        ensures PlaceOk(w', e, w'.drives[e])
      {
        assert PlaceOk(w, e, w.drives[e]);
      }
    }
  }

  lemma FailSafe(w: Store, d: DriveId, landed: bool)
    requires Safe(w) && Can(w, Fail(d, landed))
    ensures Safe(FailOnce(w, d, landed))
  {
    var w', p := FailOnce(w, d, landed), w.drives[d];
    assert PlaceOk(w, d, p);
    if Mutates(p) {
      GoneOn(w, d, 0, FailedPlace(p));
      assert landed ==> PendingOk(w, w.window[d]);
      GoesOn(w, w', d);
    } else if landed && p.Marking? && w.marker.None? {
      IdleIsNotWriting(w, d);
      MarkSafe(w, d, Done(Refused(Faulted)));
    } else {
      StandsElsewhere(w, w', d);
    }
  }

  lemma EventSafe(w: Store, m: Move)
    requires Safe(w) && Can(w, m) && (m.CheckEvent? || m.Drop?)
    ensures Safe(Do(w, m))
  {
    var w' := Do(w, m);
    forall win | win in w'.pending
      ensures PendingOk(w', win)
    {
      assert win in w.pending ==> PendingOk(w, win);
    }
    forall e | e in w'.drives
      ensures PlaceOk(w', e, w'.drives[e])
    {
      assert PlaceOk(w, e, w.drives[e]);
    }
  }

  /** A drive starts, or dies. */
  lemma LifeSafe(w: Store, m: Move)
    requires Safe(w) && Can(w, m) && (m.Open? || m.Die?)
    ensures Safe(Do(w, m))
  {
    var w' := Do(w, m);
    forall win | win in w'.pending
      ensures PendingOk(w', win)
    {
      assert PendingOk(w, win);
    }
    forall e | e in w'.drives
      ensures PlaceOk(w', e, w'.drives[e])
    {
      assert e in w.drives ==> PlaceOk(w, e, w.drives[e]);
    }
  }

  lemma StepSafe(w: Store, m: Move)
    requires Safe(w) && Can(w, m)
    ensures Safe(Do(w, m))
  {
    match m
    case Look(d, outcome) =>
      if w.drives[d].Invoking? {
        ProduceSafe(w, d, outcome);
      } else if w.drives[d].Marking? && w.marker.None? {
        MarkSafe(w, d, Mirroring(w.drives[d].resolution));
      } else if w.drives[d].Marking? {
        assert PlaceOk(w, d, w.drives[d]);
        StandsElsewhere(w, LookOnce(w, d, outcome), d);
      } else {
        LookSafe(w, d, outcome);
      }
    case Check(d, newId) => CheckSafe(w, d, newId);
    case Land(win, newId) => LandSafe(w, win, newId);
    case Fail(d, landed) => FailSafe(w, d, landed);
    case CheckEvent(_, _) => EventSafe(w, m);
    case Drop(_) => EventSafe(w, m);
    case _ => LifeSafe(w, m);
  }

  lemma {:induction false} RunSafe(w: Store, ms: seq<Move>)
    requires Safe(w) && Runs(w, ms)
    ensures Safe(End(w, ms))
    decreases |ms|
  {
    if ms != [] {
      StepSafe(w, ms[0]);
      RunSafe(Do(w, ms[0]), ms[1..]);
    }
  }

  // ---------- what the marker still gives ----------

  lemma FreshIsSafe(w: Store)
    requires Fresh(w)
    ensures Safe(w)
  {
  }

  /** Whatever updates are lost between windows, at most one drive ever goes past the claim gate, and only one whose
      claim found the record settled with a resolution. */
  lemma InvokedAtMostOnce(w: Store, ms: seq<Move>)
    requires Fresh(w) && Runs(w, ms)
    ensures
      var v := End(w, ms);
      |v.invoked| <= 1 && |v.produced| <= |v.invoked| && forall d :: d in v.invoked ==> d in v.seen
  {
    FreshIsSafe(w);
    RunSafe(w, ms);
  }

  /** That is all that `seen` can mean. */
  lemma SeenIsSettled(w: Store, m: Move, d: DriveId)
    requires Can(w, m) && d in Do(w, m).seen && d !in w.seen
    ensures w.record.state.Settled? && w.record.resolution.Some? && d in w.drives && w.drives[d].Claiming?
  {
  }

  /** How every drive ends: the one that went past the gate with its own provider outcome, any other one with the
      outcome that the provider produced, or refused. */
  lemma HowADriveEnds(w: Store, ms: seq<Move>, d: DriveId)
    requires Fresh(w) && Runs(w, ms) && d in End(w, ms).drives && End(w, ms).drives[d].Done?
    ensures
      var v := End(w, ms);
      match v.drives[d].result
      case Returned(o) => v.invoked == [d] && v.produced == [o]
      case Recovered(o) => d !in v.invoked && v.produced == [o]
      case Refused(_) => d !in v.invoked
  {
    FreshIsSafe(w);
    RunSafe(w, ms);
    assert PlaceOk(End(w, ms), d, End(w, ms).drives[d]);
  }

  lemma {:induction false} MarkerStays(w: Store, ms: seq<Move>)
    requires Runs(w, ms) && w.marker.Some?
    ensures End(w, ms).marker == w.marker
    decreases |ms|
  {
    if ms != [] {
      MarkerStays(Do(w, ms[0]), ms[1..]);
    }
  }

  lemma {:induction false} RunsOn(w: Store, ms: seq<Move>, more: seq<Move>)
    requires Runs(w, ms) && Runs(End(w, ms), more)
    ensures Runs(w, ms + more) && End(w, ms + more) == End(End(w, ms), more)
    decreases |ms|
  {
    if ms == [] {
      assert ms + more == more;
    } else {
      RunsOn(Do(w, ms[0]), ms[1..], more);
      assert (ms + more)[1..] == ms[1..] + more;
    }
  }

  /** Once a drive of any window has the marker, no other drive of any window ever goes past the gate. */
  lemma ClaimShutsOutAllOthers(w: Store, ms: seq<Move>, more: seq<Move>, d: DriveId)
    requires Fresh(w) && Runs(w, ms) && Runs(End(w, ms), more)
    requires End(w, ms).marker.Some? && d != End(w, ms).marker.value
    ensures d !in End(End(w, ms), more).invoked
  {
    FreshIsSafe(w);
    RunSafe(w, ms);
    RunSafe(End(w, ms), more);
    MarkerStays(End(w, ms), more);
  }

  // ---------- fault-free drives ----------

  lemma OneMove(w: Store, ms: seq<Move>, m: Move)
    requires Runs(w, ms) && Can(End(w, ms), m)
    ensures Runs(w, ms + [m]) && End(w, ms + [m]) == Do(End(w, ms), m)
  {
    assert [m][1..] == [];
    assert Runs(Do(End(w, ms), m), []);
    RunsOn(w, ms, [m]);
  }

  /** Only this drive moves, in this window, and every step works; a replacement that is under way there may land. */
  ghost predicate SoloIn(win: WindowId, d: DriveId, ms: seq<Move>)
  {
    forall m :: m in ms ==>
      match m
      case Open(e, _, k) => e == d && k == win
      case Look(e, _) => e == d
      case Check(e, _) => e == d
      case Land(k, _) => k == win
      case _ => false
  }

  /** A record that the store may hold, however updates get lost: each is computed from one that it held. */
  ghost predicate Formed(r: Record)
  {
    (r.state.Unanswered? || r.state.AnswersSubmitted? ==> r.resumeId.None?) &&
    (r.state.ResumeScheduled? ==> r.resumeId.Some?) &&
    (r.resolution.Some? ==> r.state.Settled? && r.resumeId.Some?)
  }

  ghost predicate AllFormed(w: Store)
  {
    Formed(w.record) && forall win :: win in w.pending ==> Formed(w.pending[win].next)
  }

  lemma StepKeepsForm(w: Store, m: Move)
    requires AllFormed(w) && Can(w, m)
    ensures AllFormed(Do(w, m))
  {
    if m.Check? {
      var next := NextRecord(w.record, w.drives[m.d]);
      assert next.Some? ==> Formed(next.value);
    }
  }

  lemma {:induction false} RunKeepsForm(w: Store, ms: seq<Move>)
    requires AllFormed(w) && Runs(w, ms)
    ensures AllFormed(End(w, ms))
    decreases |ms|
  {
    if ms != [] {
      StepKeepsForm(w, ms[0]);
      RunKeepsForm(Do(w, ms[0]), ms[1..]);
    }
  }

  /** A new drive loads a resumable record twice, and changes nothing by that. */
  lemma LoadsInWindow(w: Store, d: DriveId, id: Id, win: WindowId) returns (ms: seq<Move>)
    requires d !in w.drives && Resumable(w.record, id)
    ensures Runs(w, ms) && SoloIn(win, d, ms)
    ensures End(w, ms) == Stand(w, d, AfterResolveLoad(w.record, id)).(window := w.window[d := win])
  {
    var quiet := Outcome(0, false);
    OneMove(w, [], Open(d, id, win));
    ms := [] + [Open(d, id, win)];
    OneMove(w, ms, Look(d, quiet));
    ms := ms + [Look(d, quiet)];
    assert End(w, ms).drives[d] == Resolving(id);
    OneMove(w, ms, Look(d, quiet));
    ms := ms + [Look(d, quiet)];
    assert End(w, ms).drives == w.drives[d := AfterResolveLoad(w.record, id)];
  }

  /** A mutation that the store accepts, from its check to its end. */
  lemma MutatesAlone(w: Store, d: DriveId, newId: Id) returns (ms: seq<Move>)
    requires d in w.drives && d in w.window && Mutates(w.drives[d]) && Free(w, w.window[d])
    requires w.drives[d].Scheduling? ==> newId !in w.minted
    requires NextRecord(w.record, w.drives[d]).Some?
    ensures Runs(w, ms) && SoloIn(w.window[d], d, ms)
    ensures End(w, ms) == Finish(w, d, newId, NextRecord(w.record, w.drives[d]).value)
  {
    OneMove(w, [], Check(d, newId));
    ms := [] + [Check(d, newId)];
    if NextRecord(w.record, w.drives[d]).value != w.record {
      OneMove(w, ms, Land(w.window[d], newId));
      ms := ms + [Land(w.window[d], newId)];
      assert End(w, ms).pending == w.pending;
    }
  }

  /** One move after the other in a solo run. */
  lemma SoloOn(w: Store, win: WindowId, d: DriveId, ms: seq<Move>, more: seq<Move>)
    requires Runs(w, ms) && Runs(End(w, ms), more) && SoloIn(win, d, ms) && SoloIn(win, d, more)
    ensures Runs(w, ms + more) && SoloIn(win, d, ms + more) && End(w, ms + more) == End(End(w, ms), more)
  {
    RunsOn(w, ms, more);
  }

  /** Where a drive holds the recorded resolution. */
  ghost predicate HoldsRecorded(w: Store, d: DriveId, win: WindowId)
  {
    d in w.drives && d in w.window && w.window[d] == win && Free(w, win) && w.record.state.Settled? &&
    w.record.resolution.Some? && w.drives[d] == Resolved(w.record.resolution.value)
  }

  /** From the scheduling step to the resolution. */
  lemma SettlesInWindow(w: Store, d: DriveId) returns (ms: seq<Move>)
    requires d in w.drives && d in w.window && w.drives[d].Scheduling? && Free(w, w.window[d])
    requires Schedule(w.record, w.drives[d].chosen).Some?
    ensures Runs(w, ms) && SoloIn(w.window[d], d, ms) && HoldsRecorded(End(w, ms), d, w.window[d])
    ensures End(w, ms).marker == w.marker && End(w, ms).invoked == w.invoked
    ensures End(w, ms).record.claimMirrored == w.record.claimMirrored
  {
    var newId := UnusedId(w.minted);
    ms := MutatesAlone(w, d, newId);
    var v := End(w, ms);
    assert v.drives[d] == Settling(w.drives[d].chosen, ResolutionFor(w.record.semantics, newId));
    var more := MutatesAlone(v, d, 0);
    SoloOn(w, w.window[d], d, ms, more);
    ms := ms + more;
  }

  lemma ResolvesInWindow(w: Store, d: DriveId, id: Id, win: WindowId) returns (ms: seq<Move>)
    requires d !in w.drives && Free(w, win) && Formed(w.record) && Resumable(w.record, id)
    ensures Runs(w, ms) && SoloIn(win, d, ms) && HoldsRecorded(End(w, ms), d, win)
    ensures End(w, ms).marker == w.marker && End(w, ms).invoked == w.invoked
    ensures End(w, ms).record.claimMirrored == w.record.claimMirrored
  {
    ms := LoadsInWindow(w, d, id, win);
    if !w.record.state.Settled? {
      var more := SettlesInWindow(End(w, ms), d);
      SoloOn(w, win, d, ms, more);
      ms := ms + more;
    }
  }

  /** The claim gate finds neither a mirrored claim nor a marker. */
  lemma ClaimsInWindow(w: Store, d: DriveId, win: WindowId) returns (ms: seq<Move>)
    requires HoldsRecorded(w, d, win) && w.marker.None? && w.invoked == [] && !w.record.claimMirrored
    ensures Runs(w, ms) && SoloIn(win, d, ms)
    ensures d in End(w, ms).drives && End(w, ms).drives[d].Invoking? && End(w, ms).invoked == [d]
  {
    var quiet := Outcome(0, false);
    OneMove(w, [], Look(d, quiet));
    ms := [] + [Look(d, quiet)];
    OneMove(w, ms, Look(d, quiet));
    ms := ms + [Look(d, quiet)];
    assert End(w, ms).drives[d].Marking?;
    OneMove(w, ms, Look(d, quiet));
    ms := ms + [Look(d, quiet)];
    var more := MutatesAlone(End(w, ms), d, 0);
    SoloOn(w, win, d, ms, more);
    ms := ms + more;
  }

  /** The record once the replacement under way in this window has landed, if there is one. */
  function RecordThen(w: Store, win: WindowId): Record
  {
    if win in w.pending then w.pending[win].next else w.record
  }

  /** A window gets free by letting its replacement land. */
  lemma GetsFree(w: Store, win: WindowId, d: DriveId) returns (ms: seq<Move>)
    requires Safe(w) && d !in w.drives
    ensures Runs(w, ms) && SoloIn(win, d, ms)
    ensures
      var v := End(w, ms);
      Free(v, win) && d !in v.drives && v.record == RecordThen(w, win) && v.marker == w.marker
  {
    ms := [];
    if win in w.pending {
      assert PendingOk(w, win);
      var newId := UnusedId(w.minted);
      OneMove(w, [], Land(win, newId));
      ms := [] + [Land(win, newId)];
    }
  }

  /** No crash, no failure and no lost update before the claim strands an answered interaction in any window: from
      every reachable store without a marker, a fault-free drive of any window, once the replacement under way there
      has landed, reaches the invocation boundary, under any id while the record is unsettled and under the recorded id
      once it is settled. The other windows need not move. */
  lemma NothingStrandsBeforeTheClaim(w: Store, ms: seq<Move>, d: DriveId, id: Id, win: WindowId)
    returns (rest: seq<Move>)
    requires Fresh(w) && Runs(w, ms) && d !in End(w, ms).drives && End(w, ms).marker.None?
    requires Resumable(RecordThen(End(w, ms), win), id)
    ensures Runs(End(w, ms), rest) && SoloIn(win, d, rest)
    ensures
      var v := End(End(w, ms), rest);
      d in v.drives && v.drives[d].Invoking? && v.invoked == [d]
  {
    var v := End(w, ms);
    FreshIsSafe(w);
    RunSafe(w, ms);
    RunKeepsForm(w, ms);
    rest := GetsFree(v, win, d);
    var u := End(v, rest);
    RunSafe(v, rest);
    RunKeepsForm(v, rest);
    var more := ResolvesInWindow(u, d, id, win);
    var claim := ClaimsInWindow(End(u, more), d, win);
    SoloOn(u, win, d, more, claim);
    SoloOn(v, win, d, rest, more + claim);
    rest := rest + (more + claim);
  }

  // ---------- what two windows lose ----------

  /** Two drives that stand at the scheduling step. */
  ghost predicate BothSchedule(w: Store, d: DriveId, e: DriveId)
  {
    d != e && d in w.drives && e in w.drives && d in w.window && e in w.window &&
    w.drives[d].Scheduling? && w.drives[e].Scheduling? &&
    w.record.state.AnswersSubmitted? && w.record.resumeId.None? && w.record.resolution.None?
  }

  /** Both schedule: each passes the check before the other has written. */
  lemma BothGetScheduled(w: Store, d: DriveId, e: DriveId, x: Id, y: Id) returns (ms: seq<Move>)
    requires BothSchedule(w, d, e) && w.window[d] != w.window[e] && Free(w, w.window[d]) && Free(w, w.window[e])
    requires x != y && x !in w.minted && y !in w.minted
    ensures Runs(w, ms)
    ensures
      var v, sem := End(w, ms), w.record.semantics;
      v.window == w.window && v.pending == w.pending && v.record.state.ResumeScheduled? && v.record.semantics == sem &&
      v.drives ==
        w.drives[d := Settling(w.drives[d].chosen, ResolutionFor(sem, x))]
                [e := Settling(w.drives[e].chosen, ResolutionFor(sem, y))]
  {
    ms := [];
    OneMove(w, ms, Check(d, x));
    ms := ms + [Check(d, x)];
    OneMove(w, ms, Check(e, y));
    ms := ms + [Check(e, y)];
    OneMove(w, ms, Land(w.window[d], x));
    ms := ms + [Land(w.window[d], x)];
    OneMove(w, ms, Land(w.window[e], y));
    ms := ms + [Land(w.window[e], y)];
    assert End(w, ms).pending == w.pending;
  }

  lemma BothGetSettled(w: Store, d: DriveId, e: DriveId) returns (ms: seq<Move>)
    requires d != e && d in w.drives && e in w.drives && d in w.window && e in w.window
    requires w.window[d] != w.window[e] && Free(w, w.window[d]) && Free(w, w.window[e])
    requires w.drives[d].Settling? && w.drives[e].Settling? && w.record.state.ResumeScheduled?
    requires w.drives[d].proposed.SameOperation? == w.record.semantics.KeepOperation?
    requires w.drives[e].proposed.SameOperation? == w.record.semantics.KeepOperation?
    ensures Runs(w, ms)
    ensures
      var v := End(w, ms);
      d in v.drives && e in v.drives &&
      v.drives[d] == Resolved(w.drives[d].proposed) && v.drives[e] == Resolved(w.drives[e].proposed)
  {
    ms := [];
    OneMove(w, ms, Check(d, 0));
    ms := ms + [Check(d, 0)];
    OneMove(w, ms, Check(e, 0));
    ms := ms + [Check(e, 0)];
    OneMove(w, ms, Land(w.window[d], 0));
    ms := ms + [Land(w.window[d], 0)];
    OneMove(w, ms, Land(w.window[e], 0));
    ms := ms + [Land(w.window[e], 0)];
  }

  /** Wherever drives of two windows schedule the same answered interaction, they can end up with two resolutions. */
  lemma TwoWindowsTwoResolutions(w: Store, d: DriveId, e: DriveId, x: Id, y: Id) returns (ms: seq<Move>)
    requires BothSchedule(w, d, e) && w.window[d] != w.window[e] && Free(w, w.window[d]) && Free(w, w.window[e])
    requires x != y && x !in w.minted && y !in w.minted
    ensures Runs(w, ms)
    ensures
      var v := End(w, ms);
      d in v.drives && e in v.drives && Holds(v.drives[d]) == Some(ResolutionFor(w.record.semantics, x)) &&
      Holds(v.drives[e]) == Some(ResolutionFor(w.record.semantics, y)) && Holds(v.drives[d]) != Holds(v.drives[e])
  {
    ms := BothGetScheduled(w, d, e, x, y);
    var more := BothGetSettled(End(w, ms), d, e);
    RunsOn(w, ms, more);
    ms := ms + more;
  }

  /** A new drive gets to the scheduling step of an answered interaction. */
  lemma OneGetsToSchedule(w: Store, d: DriveId, id: Id, win: WindowId) returns (ms: seq<Move>)
    requires d !in w.drives && w.record.state.AnswersSubmitted?
    ensures Runs(w, ms)
    ensures End(w, ms) == Stand(w, d, Scheduling(id)).(window := w.window[d := win])
  {
    ms := LoadsInWindow(w, d, id, win);
  }

  /** And two windows can get that far from any new interaction. */
  lemma TwoWindowsCanSchedule(w: Store) returns (ms: seq<Move>)
    requires Fresh(w)
    ensures Runs(w, ms)
    ensures
      var v := End(w, ms);
      BothSchedule(v, 1, 2) && v.window[1] == 1 && v.window[2] == 2 && v.pending == map[] && v.minted == w.minted
  {
    OneMove(w, [], CheckEvent(0, false));
    ms := [] + [CheckEvent(0, false)];
    OneMove(w, ms, Land(0, 0));
    ms := ms + [Land(0, 0)];
    assert End(w, ms).pending == map[];
    var first := OneGetsToSchedule(End(w, ms), 1, 11, 1);
    RunsOn(w, ms, first);
    ms := ms + first;
    var second := OneGetsToSchedule(End(w, ms), 2, 22, 2);
    RunsOn(w, ms, second);
    ms := ms + second;
  }

  // ---------- one window ----------

  /** What a reader of the protocol sees of the store. */
  function Seen(w: Store): World { World(w.record, w.minted, w.drives, w.marker, w.invoked, w.produced) }

  /** Is this what the replacement under way was computed from, and what it must write? */
  ghost predicate Fits(w: Store, p: Pending)
  {
    p.base == w.record &&
    match p.owner
    case Some(d) => d in w.drives && Mutates(w.drives[d]) && NextRecord(w.record, w.drives[d]) == Some(p.next)
    case None =>
      (p.next == w.record.(state := Settled) && !w.record.state.Settled?) ||
      (p.next == w.record.(state := AnswersSubmitted) && w.record.state.Unanswered?)
  }

  /** Everything runs in window `k`. */
  ghost predicate OneWindow(w: Store, k: WindowId)
  {
    w.drives.Keys == w.window.Keys && (forall d :: d in w.window ==> w.window[d] == k) && w.pending.Keys <= {k} &&
    (k in w.pending ==> Fits(w, w.pending[k]))
  }

  predicate InWindow(m: Move, k: WindowId)
  {
    match m
    case Open(_, _, win) => win == k
    case CheckEvent(win, _) => win == k
    case _ => true
  }

  lemma LandRefines(w: Store, k: WindowId, newId: Id) returns (l: Label)
    requires OneWindow(w, k) && Can(w, Land(k, newId))
    ensures Enabled(Seen(w), l) && Apply(Seen(w), l) == Seen(LandOnce(w, k, newId))
    ensures OneWindow(LandOnce(w, k, newId), k)
  {
    var p := w.pending[k];
    l := if p.owner.Some? then Go(p.owner.value, newId, Outcome(0, false))
         else if p.next.state.Settled? then Close else SubmitAnswers;
  }

  lemma FailRefines(w: Store, k: WindowId, d: DriveId, landed: bool)
    requires OneWindow(w, k) && Can(w, Fail(d, landed))
    ensures Apply(Seen(w), Fault(d, landed)) == Seen(FailOnce(w, d, landed))
    ensures OneWindow(FailOnce(w, d, landed), k)
  {
  }

  lemma CheckRefines(w: Store, k: WindowId, d: DriveId, newId: Id) returns (ls: seq<Label>)
    requires OneWindow(w, k) && Can(w, Check(d, newId))
    ensures |ls| <= 1 && (ls == [] ==> Seen(CheckOnce(w, d, newId)) == Seen(w))
    ensures ls != [] ==> Enabled(Seen(w), ls[0]) && Apply(Seen(w), ls[0]) == Seen(CheckOnce(w, d, newId))
    ensures OneWindow(CheckOnce(w, d, newId), k)
  {
    var next := NextRecord(w.record, w.drives[d]);
    ls := if next.Some? && next.value != w.record then [] else [Go(d, newId, Outcome(0, false))];
  }

  lemma LookRefines(w: Store, k: WindowId, d: DriveId, outcome: Outcome)
    requires OneWindow(w, k) && Can(w, Look(d, outcome))
    ensures Apply(Seen(w), Go(d, 0, outcome)) == Seen(LookOnce(w, d, outcome))
    ensures OneWindow(LookOnce(w, d, outcome), k)
  {
  }

  lemma EventRefines(w: Store, m: Move, k: WindowId)
    requires OneWindow(w, k) && Can(w, m) && InWindow(m, k) && (m.Open? || m.CheckEvent? || m.Drop? || m.Die?)
    ensures m.Open? ==> Seen(Do(w, m)) == Apply(Seen(w), Start(m.d, m.id))
    ensures m.Die? ==> Seen(Do(w, m)) == Apply(Seen(w), Label.Crash(m.d))
    ensures m.CheckEvent? || m.Drop? ==> Seen(Do(w, m)) == Seen(w)
    ensures OneWindow(Do(w, m), k)
  {
  }

  /** Within one window every move is a step of the protocol, or invisible to it. */
  lemma MoveRefines(w: Store, m: Move, k: WindowId) returns (ls: seq<Label>)
    requires OneWindow(w, k) && Can(w, m) && InWindow(m, k)
    ensures |ls| <= 1 && (ls == [] ==> Seen(Do(w, m)) == Seen(w))
    ensures ls != [] ==> Enabled(Seen(w), ls[0]) && Apply(Seen(w), ls[0]) == Seen(Do(w, m))
    ensures OneWindow(Do(w, m), k)
  {
    match m
    case Look(d, outcome) =>
      LookRefines(w, k, d, outcome);
      ls := [Go(d, 0, outcome)];
    case Check(d, newId) => ls := CheckRefines(w, k, d, newId);
    case Land(_, newId) =>
      var l := LandRefines(w, k, newId);
      ls := [l];
    case Fail(d, landed) =>
      FailRefines(w, k, d, landed);
      ls := [Fault(d, landed)];
    case Open(d, id, _) =>
      EventRefines(w, m, k);
      ls := [Start(d, id)];
    case Die(d) =>
      EventRefines(w, m, k);
      ls := [Label.Crash(d)];
    case CheckEvent(_, _) =>
      EventRefines(w, m, k);
      ls := [];
    case Drop(_) =>
      EventRefines(w, m, k);
      ls := [];
  }

  /** So every run of one window is a run of the protocol, with the same record, drives and calls at its end. */
  lemma {:induction false} OneWindowRefines(w: Store, ms: seq<Move>, k: WindowId) returns (ls: seq<Label>)
    requires OneWindow(w, k) && Runs(w, ms) && forall m :: m in ms ==> InWindow(m, k)
    ensures Legal(Seen(w), ls) && After(Seen(w), ls) == Seen(End(w, ms)) && OneWindow(End(w, ms), k)
    decreases |ms|
  {
    ls := [];
    if ms != [] {
      var first := MoveRefines(w, ms[0], k);
      var rest := OneWindowRefines(Do(w, ms[0]), ms[1..], k);
      ls := first + rest;
      if first == [] {
        assert ls == rest;
      } else {
        assert ls[1..] == rest;
      }
    }
  }

  /** The drives of one window agree on one resolution over the whole history, and start under the same attempt. */
  lemma OneWindowOneResolution(w: Store, ms: seq<Move>, more: seq<Move>, k: WindowId, d: DriveId, e: DriveId)
    requires Fresh(w) && Runs(w, ms) && Runs(End(w, ms), more)
    requires forall m :: m in ms + more ==> InWindow(m, k)
    requires d in End(w, ms).drives && e in End(End(w, ms), more).drives
    requires Holds(End(w, ms).drives[d]).Some? && Holds(End(End(w, ms), more).drives[e]).Some?
    ensures
      var p, q := End(w, ms).drives[d], End(End(w, ms), more).drives[e];
      Holds(p) == Holds(q) == End(End(w, ms), more).record.resolution && FirstAttempt(p) == FirstAttempt(q)
  {
    assert forall m :: (m in ms ==> m in ms + more) && (m in more ==> m in ms + more);
    var ls := OneWindowRefines(w, ms, k);
    var rest := OneWindowRefines(End(w, ms), more, k);
    OneResolution(Seen(w), ls, rest, d, e);
  }
}
