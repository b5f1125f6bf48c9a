/** An exhausted chain on a log the attempt loop really produces: the cursor walk of ChainExhaustion hands every ranked
    candidate exactly its own attempts, and the chain counts as deferred exactly when all of them wait for a quota. */
module ChainAttribution {
  import opened Wrappers
  import opened ProviderSelection
  import opened TaskOutcome
  import opened ChainExhaustion
  import opened RoundParts
  import opened AttemptLog
  import opened AttemptBooks
  import RoundResults

  // ---------- the log as a sequence of groups ----------

  /** Where the last group starts: its original, the last attempt that is no retry. */
  function LastOriginal(reserved: seq<Attempt>, retries: set<AttemptId>): (k: nat)
    ensures k <= |reserved|
  {
    if reserved == [] then 0
    else if Last(reserved).id in retries then LastOriginal(reserved[..|reserved| - 1], retries)
    else |reserved| - 1
  }

  /** One slot for every ranked candidate: empty for one that cannot serve the mode, else its original and retries. */
  function SlotsOf(ranked: seq<Candidate>, reserved: seq<Attempt>, retries: set<AttemptId>): (slots: seq<Slot>)
    ensures |slots| == |ranked|
  {
    if ranked == [] then []
    else
      var front := ranked[..|ranked| - 1];
      if !Last(ranked).supported then SlotsOf(front, reserved, retries) + [Slot(Last(ranked).model, [])]
      else
        var k := LastOriginal(reserved, retries);
        SlotsOf(front, reserved[..k], retries) + [Slot(Last(ranked).model, reserved[k..])]
  }

  /** The walk over attempts instead of over their identities. */
  ghost predicate WalkOf(ranked: seq<Candidate>, reserved: seq<Attempt>, retries: set<AttemptId>)
    decreases |ranked| + |reserved|
  {
    if reserved != [] && Last(reserved).id in retries then
      |reserved| > 1 && Last(reserved).model == reserved[|reserved| - 2].model &&
      WalkOf(ranked, reserved[..|reserved| - 1], retries)
    else if ranked == [] then reserved == []
    else if !Last(ranked).supported then WalkOf(ranked[..|ranked| - 1], reserved, retries)
    else
      reserved != [] && Last(reserved).model == Some(Last(ranked).model) &&
      WalkOf(ranked[..|ranked| - 1], reserved[..|reserved| - 1], retries)
  }

  /** Does the trail list these attempts? */
  ghost predicate Lists(trail: seq<(AttemptId, ModelId)>, reserved: seq<Attempt>)
  {
    |trail| == |reserved| &&
    forall i :: 0 <= i < |trail| ==> trail[i].0 == reserved[i].id && reserved[i].model == Some(trail[i].1)
  }

  lemma {:induction false} TrailListsReserved(attempts: seq<Attempt>)
    ensures Lists(Trail(attempts), ReservedOf(attempts))
  {
    if attempts != [] {
      TrailListsReserved(attempts[..|attempts| - 1]);
    }
  }

  /** Exactly the repeats on the trail are retries. */
  ghost predicate Marks(trail: seq<(AttemptId, ModelId)>, retries: set<AttemptId>)
  {
    forall k :: 0 <= k < |trail| ==> (trail[k].0 in retries <==> IsRepeat(trail[..k + 1]))
  }

  ghost predicate DistinctTrail(trail: seq<(AttemptId, ModelId)>)
  {
    forall i, j :: 0 <= i < j < |trail| ==> trail[i].0 != trail[j].0
  }

  lemma MarksGrow(front: seq<(AttemptId, ModelId)>, x: (AttemptId, ModelId), retries: set<AttemptId>,
                  retries': set<AttemptId>)
    requires Marks(front, retries) && x.0 !in TrailIds(front) && x.0 !in retries
    requires retries' == retries + (if IsRepeat(front + [x]) then {x.0} else {})
    ensures Marks(front + [x], retries')
  {
    var trail := front + [x];
    forall k | 0 <= k < |trail|
      ensures trail[k].0 in retries' <==> IsRepeat(trail[..k + 1])
    {
      if k < |front| {
        assert front[..k + 1] == trail[..k + 1] && front[k] == trail[k];
        assert front[k] in front && front[k].0 in TrailIds(front);
      } else {
        assert trail[..k + 1] == trail;
      }
    }
  }

  function TrailIds(trail: seq<(AttemptId, ModelId)>): set<AttemptId> { set x | x in trail :: x.0 }

  lemma {:induction false} RepeatIdsMark(trail: seq<(AttemptId, ModelId)>)
    requires DistinctTrail(trail)
    ensures Marks(trail, RepeatIds(trail)) && RepeatIds(trail) <= TrailIds(trail)
  {
    if trail != [] {
      var m := |trail| - 1;
      var front := trail[..m];
      RepeatIdsMark(front);
      assert trail == front + [Last(trail)];
      assert Last(trail).0 !in TrailIds(front);
      assert TrailIds(trail) == TrailIds(front) + {Last(trail).0};
      MarksGrow(front, Last(trail), RepeatIds(front), RepeatIds(trail));
    }
  }

  lemma MarksFront(trail: seq<(AttemptId, ModelId)>, retries: set<AttemptId>)
    requires Marks(trail, retries)
    ensures trail != [] ==>
      Marks(trail[..|trail| - 1], retries) && (Last(trail).0 in retries <==> IsRepeat(trail))
  {
    if trail != [] {
      var m := |trail| - 1;
      assert trail[..m + 1] == trail;
      forall k | 0 <= k < m
        ensures trail[..m][k].0 in retries <==> IsRepeat(trail[..m][..k + 1])
      {
        assert trail[..m][..k + 1] == trail[..k + 1];
      }
    }
  }

  lemma {:induction false} WalkIsWalkOf(ranked: seq<Candidate>, trail: seq<(AttemptId, ModelId)>,
                                        reserved: seq<Attempt>, retries: set<AttemptId>)
    requires Walk(ranked, trail) && Lists(trail, reserved) && Marks(trail, retries)
    ensures WalkOf(ranked, reserved, retries)
    decreases |ranked| + |trail|
  {
    MarksFront(trail, retries);
    if IsRepeat(trail) {
      WalkIsWalkOf(ranked, trail[..|trail| - 1], reserved[..|reserved| - 1], retries);
    } else if ranked == [] {
    } else if !Last(ranked).supported {
      WalkIsWalkOf(ranked[..|ranked| - 1], trail, reserved, retries);
    } else {
      WalkIsWalkOf(ranked[..|ranked| - 1], trail[..|trail| - 1], reserved[..|reserved| - 1], retries);
    }
  }

  lemma {:induction false} DropUnsupported(ranked: seq<Candidate>, reserved: seq<Attempt>, retries: set<AttemptId>)
    requires ranked != [] && !Last(ranked).supported && WalkOf(ranked, reserved, retries)
    ensures WalkOf(ranked[..|ranked| - 1], reserved, retries)
    decreases |reserved|
  {
    if reserved != [] && Last(reserved).id in retries {
      DropUnsupported(ranked, reserved[..|reserved| - 1], retries);
    }
  }

  predicate OneModel(s: Slot)
  {
    forall i :: 0 <= i < |s.own| ==> s.own[i].model == Some(s.model)
  }

  /** The last group belongs to the last candidate, and the rest is a walk over the others. */
  lemma {:induction false} LastGroup(ranked: seq<Candidate>, reserved: seq<Attempt>, retries: set<AttemptId>)
    requires ranked != [] && Last(ranked).supported && WalkOf(ranked, reserved, retries)
    ensures
      var k := LastOriginal(reserved, retries);
      k < |reserved| && OwnGroup(Slot(Last(ranked).model, reserved[k..]), retries) &&
      OneModel(Slot(Last(ranked).model, reserved[k..])) && WalkOf(ranked[..|ranked| - 1], reserved[..k], retries)
    decreases |reserved|
  {
    if reserved != [] && Last(reserved).id in retries {
      var front := reserved[..|reserved| - 1];
      LastGroup(ranked, front, retries);
      var k := LastOriginal(reserved, retries);
      assert reserved[..k] == front[..k];
      assert reserved[k..] == front[k..] + [Last(reserved)];
    }
  }

  // ---------- the slots are the log ----------

  lemma {:induction false} SlotsAppend(slots: seq<Slot>, s: Slot)
    ensures SlotModels(slots + [s]) == SlotModels(slots) + [s.model]
    ensures Groups(slots + [s]) == Groups(slots) + [s.own]
    ensures Trace(slots + [s]) == Trace(slots) + s.own
  {
    if slots == [] {
      assert slots + [s] == [s];
      assert [s][1..] == [];
      assert Groups([s]) == [s.own] && Flatten([s.own]) == s.own by {
        assert [s.own][1..] == [];
        assert s.own + [] == s.own;
      }
    } else {
      assert (slots + [s])[1..] == slots[1..] + [s];
      SlotsAppend(slots[1..], s);
      assert Groups(slots + [s])[1..] == Groups(slots[1..] + [s]) && Groups(slots)[1..] == Groups(slots[1..]);
      Joined(slots[0].own, Trace(slots[1..]), s.own);
    }
  }

  lemma {:induction false} NothingWalked(reserved: seq<Attempt>, retries: set<AttemptId>)
    requires WalkOf([], reserved, retries)
    ensures reserved == []
  {
    if reserved != [] && Last(reserved).id in retries {
      NothingWalked(reserved[..|reserved| - 1], retries);
    }
  }

  lemma WalkedAppend(slots: seq<Slot>, s: Slot, retries: set<AttemptId>)
    requires WellWalked(slots, retries) && OwnGroup(s, retries)
    ensures WellWalked(slots + [s], retries)
  {
  }

  /** One slot for each candidate, with attempts for its model only. */
  ghost predicate MadeOf(slots: seq<Slot>, ranked: seq<Candidate>)
  {
    |slots| == |ranked| && forall i :: 0 <= i < |slots| ==> OneModel(slots[i]) && slots[i].model == ranked[i].model
  }

  lemma MadeAppend(slots: seq<Slot>, s: Slot, ranked: seq<Candidate>)
    requires ranked != [] && MadeOf(slots, ranked[..|ranked| - 1]) && OneModel(s) && s.model == Last(ranked).model
    ensures MadeOf(slots + [s], ranked)
  {
  }

  lemma {:induction false} SlotsAreTheLog(ranked: seq<Candidate>, reserved: seq<Attempt>, retries: set<AttemptId>)
    requires WalkOf(ranked, reserved, retries)
    ensures
      var slots := SlotsOf(ranked, reserved, retries);
      WellWalked(slots, retries) && Trace(slots) == reserved && SlotModels(slots) == RankedModels(ranked) &&
      MadeOf(slots, ranked)
  {
    if ranked == [] {
      NothingWalked(reserved, retries);
    } else if !Last(ranked).supported {
      DropUnsupported(ranked, reserved, retries);
      SlotsAreTheLog(ranked[..|ranked| - 1], reserved, retries);
      var front := SlotsOf(ranked[..|ranked| - 1], reserved, retries);
      SlotsAppend(front, Slot(Last(ranked).model, []));
      WalkedAppend(front, Slot(Last(ranked).model, []), retries);
      MadeAppend(front, Slot(Last(ranked).model, []), ranked);
      assert Trace(front) + [] == Trace(front);
    } else {
      LastGroup(ranked, reserved, retries);
      var k := LastOriginal(reserved, retries);
      SlotsAreTheLog(ranked[..|ranked| - 1], reserved[..k], retries);
      var front := SlotsOf(ranked[..|ranked| - 1], reserved[..k], retries);
      SlotsAppend(front, Slot(Last(ranked).model, reserved[k..]));
      WalkedAppend(front, Slot(Last(ranked).model, reserved[k..]), retries);
      MadeAppend(front, Slot(Last(ranked).model, reserved[k..]), ranked);
      assert reserved == reserved[..k] + reserved[k..];
    }
  }

  function RankedModels(ranked: seq<Candidate>): seq<ModelId>
  {
    if ranked == [] then [] else RankedModels(ranked[..|ranked| - 1]) + [Last(ranked).model]
  }

  // ---------- switched-off candidates come last, with nothing ----------

  function OffSlots(models: seq<ModelId>): (slots: seq<Slot>)
    ensures |slots| == |models|
    ensures forall i :: 0 <= i < |slots| ==> slots[i] == Slot(models[i], [])
  {
    seq(|models|, i requires 0 <= i < |models| => Slot(models[i], []))
  }

  lemma {:induction false} OffAppend(slots: seq<Slot>, models: seq<ModelId>, retries: set<AttemptId>)
    requires WellWalked(slots, retries)
    ensures
      var all := slots + OffSlots(models);
      WellWalked(all, retries) && Trace(all) == Trace(slots) && SlotModels(all) == SlotModels(slots) + models
  {
    if models == [] {
      assert slots + OffSlots(models) == slots;
    } else {
      var front, m := models[..|models| - 1], models[|models| - 1];
      OffAppend(slots, front, retries);
      assert slots + OffSlots(models) == (slots + OffSlots(front)) + [Slot(m, [])];
      SlotsAppend(slots + OffSlots(front), Slot(m, []));
      WalkedAppend(slots + OffSlots(front), Slot(m, []), retries);
      Joined(SlotModels(slots), front, [m]);
      assert front + [m] == models;
    }
  }

  lemma {:induction false} RankedModelsAt(ranked: seq<Candidate>, i: nat)
    requires i < |ranked|
    ensures |RankedModels(ranked)| == |ranked| && RankedModels(ranked)[i] == ranked[i].model
  {
    if i < |ranked| - 1 {
      RankedModelsAt(ranked[..|ranked| - 1], i);
    } else if |ranked| > 1 {
      RankedModelsAt(ranked[..|ranked| - 1], 0);
    }
  }

  lemma EvidenceModels(ranked: seq<Candidate>, cursor: nat, switchedOff: seq<ModelId>)
    ensures Models(Evidence(ranked, cursor, switchedOff)) == RankedModels(ranked) + switchedOff
  {
    forall i | 0 <= i < |ranked|
      ensures |RankedModels(ranked)| == |ranked| && RankedModels(ranked)[i] == ranked[i].model
    {
      RankedModelsAt(ranked, i);
    }
  }

  lemma {:induction false} GroupsAt(slots: seq<Slot>, i: nat)
    requires i < |slots|
    ensures Groups(slots)[i] == slots[i].own
  {
    if i > 0 {
      GroupsAt(slots[1..], i - 1);
    }
  }

  // ---------- every candidate gets exactly its own attempts ----------

  lemma {:induction false} AttemptsOfJoin(a: seq<Attempt>, b: seq<Attempt>, m: ModelId)
    ensures AttemptsOf(a + b, m) == AttemptsOf(a, m) + AttemptsOf(b, m)
  {
    if b == [] {
      assert a + b == a;
    } else {
      assert (a + b)[..|a + b| - 1] == a + b[..|b| - 1];
      AttemptsOfJoin(a, b[..|b| - 1], m);
    }
  }

  lemma {:induction false} AttemptsOfReserved(attempts: seq<Attempt>, m: ModelId)
    ensures AttemptsOf(ReservedOf(attempts), m) == AttemptsOf(attempts, m)
  {
    if attempts != [] {
      var front, a := attempts[..|attempts| - 1], Last(attempts);
      AttemptsOfReserved(front, m);
      AttemptsOfJoin(ReservedOf(front), if a.model.Some? then [a] else [], m);
      assert [a][..0] == [];
    }
  }

  lemma {:induction false} AttemptsOfGroup(own: seq<Attempt>, model: ModelId, m: ModelId)
    requires OneModel(Slot(model, own))
    ensures AttemptsOf(own, m) == if m == model then own else []
  {
    if own != [] {
      AttemptsOfGroup(own[..|own| - 1], model, m);
      assert own == own[..|own| - 1] + [Last(own)];
    }
  }

  /** Where no two slots share a model, the attempts of a model are those of its slot. */
  lemma {:induction false} GroupOfModel(slots: seq<Slot>, retries: set<AttemptId>, m: ModelId)
    requires WellWalked(slots, retries) && forall i :: 0 <= i < |slots| ==> OneModel(slots[i])
    requires forall i, j :: 0 <= i < j < |slots| ==> slots[i].model != slots[j].model
    ensures forall i :: 0 <= i < |slots| && slots[i].model == m ==> AttemptsOf(Trace(slots), m) == slots[i].own
    ensures (forall i :: 0 <= i < |slots| ==> slots[i].model != m) ==> AttemptsOf(Trace(slots), m) == []
  {
    if slots != [] {
      var s, rest := slots[0], slots[1..];
      TraceSplits(slots, retries);
      assert forall i :: 0 <= i < |rest| ==> rest[i] == slots[i + 1];
      GroupOfModel(rest, retries, m);
      AttemptsOfJoin(s.own, Trace(rest), m);
      AttemptsOfGroup(s.own, s.model, m);
    }
  }

  lemma {:induction false} NextReservedAppend(slots: seq<Slot>, off: seq<Slot>)
    requires forall i :: 0 <= i < |off| ==> off[i].own == []
    ensures NextReserved(slots + off) == NextReserved(slots)
    ensures NoSharedSkip(slots) ==> NoSharedSkip(slots + off)
  {
    if slots != [] {
      assert (slots + off)[1..] == slots[1..] + off;
      NextReservedAppend(slots[1..], off);
    } else if off != [] {
      assert slots + off == off && off[1..] == [] + off[1..];
      NextReservedAppend([], off[1..]);
    }
  }

  lemma {:induction false} SlotModelAt(slots: seq<Slot>, i: nat)
    requires i < |slots|
    ensures SlotModels(slots)[i] == slots[i].model
  {
    if i > 0 {
      SlotModelAt(slots[1..], i - 1);
    }
  }

  lemma DistinctSlotsNeverShared(slots: seq<Slot>)
    requires forall i, j :: 0 <= i < j < |slots| ==> slots[i].model != slots[j].model
    ensures NoSharedSkip(slots)
  {
    forall i, j | 0 <= i < j < |slots|
      ensures SlotModels(slots)[i] != SlotModels(slots)[j]
    {
      SlotModelAt(slots, i);
      SlotModelAt(slots, j);
    }
    DistinctModelsNeverShared(slots);
  }

  lemma TrailIsDistinct(attempts: seq<Attempt>)
    requires WellLogged(attempts)
    ensures DistinctTrail(Trail(attempts))
  {
    TrailListsReserved(attempts);
    assert Distinct(AttemptIds(attempts));
    ReservedIdsDistinct(attempts);
    var reserved := ReservedOf(attempts);
    assert forall i :: 0 <= i < |reserved| ==> AttemptIds(reserved)[i] == Trail(attempts)[i].0;
  }

  lemma {:induction false} WalkWithoutSupport(ranked: seq<Candidate>)
    requires SupportedCount(ranked) == 0
    ensures Walk(ranked, [])
  {
    if ranked != [] {
      WalkWithoutSupport(ranked[..|ranked| - 1]);
    }
  }

  /** An exhausted log is a walk over the whole ranking. */
  lemma ExhaustedWalk(l: Ledger)
    requires RankedWalk(l) && (Count(l) > 0 ==> l.cursor == |l.ranked|)
    ensures Walk(l.ranked, Trail(l.attempts))
  {
    assert l.ranked[..|l.ranked|] == l.ranked;
    if Count(l) == 0 {
      WalkWithoutSupport(l.ranked);
      WalkedModels(l.ranked[..l.cursor], Trail(l.attempts));
      if Trail(l.attempts) != [] {
        var c := Candidate(Last(Trail(l.attempts)).1, true);
        assert Last(Trail(l.attempts)) in Trail(l.attempts) && c in l.ranked[..l.cursor] && c in l.ranked;
        RoundResults.SupportedIsCounted(l.ranked, c);
      }
    }
  }

  /** The slots of an exhausted log, and what the cursor walk makes of them. */
  lemma SlotsOfExhausted(l: Ledger, switchedOff: seq<ModelId>) returns (slots: seq<Slot>)
    requires WellLogged(l.attempts) && RankedWalk(l) && (Count(l) > 0 ==> l.cursor == |l.ranked|)
    ensures |slots| == |l.ranked|
    ensures forall i :: 0 <= i < |slots| ==> slots[i].own == AttemptsOf(l.attempts, l.ranked[i].model)
    ensures Trace(slots) == ReservedOf(l.attempts)
    ensures
      var evidence := Evidence(l.ranked, l.cursor, switchedOff);
      var claims := Claims(Models(evidence), ReservedOf(l.attempts), RepeatIds(Trail(l.attempts)));
      claims == Groups(slots + OffSlots(switchedOff))
  {
    var reserved, retries := ReservedOf(l.attempts), RepeatIds(Trail(l.attempts));
    ExhaustedWalk(l);
    TrailListsReserved(l.attempts);
    TrailIsDistinct(l.attempts);
    RepeatIdsMark(Trail(l.attempts));
    WalkIsWalkOf(l.ranked, Trail(l.attempts), reserved, retries);
    SlotsAreTheLog(l.ranked, reserved, retries);
    slots := SlotsOf(l.ranked, reserved, retries);
    OffAppend(slots, switchedOff, retries);
    EvidenceModels(l.ranked, l.cursor, switchedOff);
    DistinctSlotsNeverShared(slots);
    NextReservedAppend(slots, OffSlots(switchedOff));
    OwnAttemptsExactlyWhen(slots + OffSlots(switchedOff), retries);
    forall i | 0 <= i < |slots|
      ensures slots[i].own == AttemptsOf(l.attempts, l.ranked[i].model)
    {
      GroupOfModel(slots, retries, l.ranked[i].model);
      AttemptsOfReserved(l.attempts, l.ranked[i].model);
    }
  }

  /** Every ranked candidate has exactly the attempts that were reserved for its model, a switched-off one none. */
  ghost predicate Attributed(c: seq<CandidateStatus>, l: Ledger, switchedOff: seq<ModelId>, quota: AttemptId -> bool)
  {
    var evidence := Evidence(l.ranked, l.cursor, switchedOff);
    |c| == |l.ranked| + |switchedOff| &&
    (forall i :: 0 <= i < |l.ranked| ==>
      c[i] == Enriched(evidence[i], AttemptsOf(l.attempts, l.ranked[i].model), quota)) &&
    (forall i :: |l.ranked| <= i < |c| ==> c[i] == evidence[i])
  }

  lemma OwnClaims(slots: seq<Slot>, models: seq<ModelId>, i: nat)
    requires i < |slots| + |models|
    ensures Groups(slots + OffSlots(models))[i] == if i < |slots| then slots[i].own else []
  {
    GroupsAt(slots + OffSlots(models), i);
  }

  lemma GroupsAttribute(chain: Chain, l: Ledger, switchedOff: seq<ModelId>, quota: AttemptId -> bool, slots: seq<Slot>)
    requires |slots| == |l.ranked|
    requires forall i :: 0 <= i < |slots| ==> slots[i].own == AttemptsOf(l.attempts, l.ranked[i].model)
    requires
      var evidence := Evidence(l.ranked, l.cursor, switchedOff);
      EnrichedBy(chain, evidence, l.attempts, Groups(slots + OffSlots(switchedOff)), quota)
    ensures Attributed(chain.candidates, l, switchedOff, quota)
  {
    forall i | 0 <= i < |slots| + |switchedOff|
      ensures Groups(slots + OffSlots(switchedOff))[i] == if i < |slots| then slots[i].own else []
    {
      OwnClaims(slots, switchedOff, i);
    }
  }

  /** Every exhausted chain that a round reports gives each ranked candidate exactly the attempts that were reserved for
      its model, says of a switched-off one only that, and lists exactly the attempts without a reservation besides. */
  lemma ExhaustedChainIsAttributed(op: Operation, s: Surroundings, l: Ledger, switchedOff: seq<ModelId>, o: Outcome)
    requires Finished(op, s, l, switchedOff, o) && Last(l.attempts).outcome.Some? && o.Unavailable? && o.chain.Some?
    ensures Attributed(o.chain.value.candidates, l, switchedOff, s.quota)
    ensures forall a :: a in l.attempts ==> (a.id in o.chain.value.unclaimed <==> a.model.None?)
  {
    RoundResults.ChainIsReported(op, s, l, switchedOff, o);
    var slots := SlotsOfExhausted(l, switchedOff);
    GroupsAttribute(o.chain.value, l, switchedOff, s.quota, slots);
    OffTrace(slots, switchedOff);
    UnclaimedAreUnreserved(l.attempts);
  }

  lemma {:induction false} OffTrace(slots: seq<Slot>, models: seq<ModelId>)
    ensures Flatten(Groups(slots + OffSlots(models))) == Trace(slots)
  {
    if models == [] {
      assert slots + OffSlots(models) == slots;
    } else {
      var front, m := models[..|models| - 1], models[|models| - 1];
      OffTrace(slots, front);
      assert slots + OffSlots(models) == (slots + OffSlots(front)) + [Slot(m, [])];
      SlotsAppend(slots + OffSlots(front), Slot(m, []));
    }
  }

  lemma UnclaimedAreUnreserved(attempts: seq<Attempt>)
    requires WellLogged(attempts)
    ensures forall a :: a in attempts ==>
      (a.id in Unclaimed(attempts, IdSet(ReservedOf(attempts))) <==> a.model.None?)
  {
    var claimed := IdSet(ReservedOf(attempts));
    UnclaimedAreTheRest(attempts, claimed);
    forall a | a in attempts
      ensures a.id in AttemptIds(attempts) && (a.id in claimed <==> a.model.Some?)
    {
      var i :| 0 <= i < |attempts| && attempts[i] == a;
      assert AttemptIds(attempts)[i] == a.id;
      if a.id in claimed {
        var b :| b in ReservedOf(attempts) && b.id == a.id;
        var j :| 0 <= j < |attempts| && attempts[j] == b;
        assert i == j;
      }
    }
  }

  // ---------- when the chain counts as deferred ----------

  lemma WalkedHasAttempts(l: Ledger, c: Candidate)
    requires RankedWalk(l) && l.cursor == |l.ranked| && c in l.ranked && c.supported
    ensures AttemptsOf(l.attempts, c.model) != []
  {
    assert l.ranked[..l.cursor] == l.ranked;
    WalkCovers(l.ranked, Trail(l.attempts), c);
    var x :| x in Trail(l.attempts) && x.1 == c.model;
    TimesPositive(Trail(l.attempts), x);
    TimesCountAttempts(l.attempts, c.model);
  }

  lemma {:induction false} TimesPositive(trail: seq<(AttemptId, ModelId)>, x: (AttemptId, ModelId))
    requires x in trail
    ensures Times(trail, x.1) > 0
  {
    if x != Last(trail) {
      assert trail == trail[..|trail| - 1] + [Last(trail)];
      TimesPositive(trail[..|trail| - 1], x);
    }
  }

  /** No candidate that cannot serve the mode was ever reserved. */
  lemma UnsupportedHasNone(l: Ledger, i: nat)
    requires RankedWalk(l) && i < |l.ranked| && !l.ranked[i].supported
    ensures AttemptsOf(l.attempts, l.ranked[i].model) == []
  {
    var m := l.ranked[i].model;
    assert forall j :: 0 <= j < l.cursor ==> l.ranked[j] == l.ranked[i] || l.ranked[j].model != m;
    assert Candidate(m, true) !in l.ranked[..l.cursor];
    WalkTimes(l.ranked[..l.cursor], Trail(l.attempts), m, MAX_REPEATS);
    TimesCountAttempts(l.attempts, m);
  }

  ghost predicate AllAtTheirLimit(l: Ledger, quota: AttemptId -> bool)
  {
    forall i :: 0 <= i < |l.ranked| && l.ranked[i].supported ==>
      var own := AttemptsOf(l.attempts, l.ranked[i].model);
      own != [] && UsageLimit(Last(own), quota)
  }

  lemma StatusOf(l: Ledger, switchedOff: seq<ModelId>, quota: AttemptId -> bool, c: seq<CandidateStatus>, i: nat)
    requires Attributed(c, l, switchedOff, quota) && i < |l.ranked|
    requires RankedWalk(l) && l.cursor == |l.ranked|
    ensures c[i].reason.CannotServeMode? <==> !l.ranked[i].supported
    ensures
      var own := AttemptsOf(l.attempts, l.ranked[i].model);
      l.ranked[i].supported ==> own != [] && (c[i].deferred <==> UsageLimit(Last(own), quota))
  {
    if l.ranked[i].supported {
      WalkedHasAttempts(l, l.ranked[i]);
    } else {
      UnsupportedHasNone(l, i);
    }
  }

  lemma {:induction false} SomeSupported(ranked: seq<Candidate>) returns (i: nat)
    requires SupportedCount(ranked) > 0
    ensures i < |ranked| && ranked[i].supported
  {
    if Last(ranked).supported {
      i := |ranked| - 1;
    } else {
      i := SomeSupported(ranked[..|ranked| - 1]);
    }
  }

  /** An exhausted chain with candidates counts as deferred exactly when no configured candidate is switched off and the
      last attempt of every candidate that can serve the mode failed on a usage limit. */
  lemma DeferredExactlyWhen(op: Operation, s: Surroundings, l: Ledger, switchedOff: seq<ModelId>, o: Outcome)
    requires Finished(op, s, l, switchedOff, o) && Last(l.attempts).outcome.Some? && o.Unavailable? && o.chain.Some?
    requires Count(l) > 0
    ensures o.why.CandidatesDeferred? <==> switchedOff == [] && AllAtTheirLimit(l, s.quota)
  {
    ExhaustedChainIsAttributed(op, s, l, switchedOff, o);
    RoundResults.ChainIsReported(op, s, l, switchedOff, o);
    DeferredWhen(l, switchedOff, s.quota, o.chain.value.candidates);
  }

  lemma DeferredWhen(l: Ledger, switchedOff: seq<ModelId>, quota: AttemptId -> bool, c: seq<CandidateStatus>)
    requires Attributed(c, l, switchedOff, quota) && RankedWalk(l) && l.cursor == |l.ranked| && Count(l) > 0
    ensures AllInvokedDeferred(c) <==> switchedOff == [] && AllAtTheirLimit(l, quota)
  {
    forall i | 0 <= i < |l.ranked|
      ensures c[i].reason.CannotServeMode? <==> !l.ranked[i].supported
      ensures
        var own := AttemptsOf(l.attempts, l.ranked[i].model);
        l.ranked[i].supported ==> own != [] && (c[i].deferred <==> UsageLimit(Last(own), quota))
    {
      StatusOf(l, switchedOff, quota, c, i);
    }
    var k := SomeSupported(l.ranked);
    assert !c[k].reason.CannotServeMode?;
    if switchedOff != [] {
      assert c[|l.ranked|].reason.ProviderDisabled? && !c[|l.ranked|].deferred;
    }
  }

  // ---------- the chain in the fields of the log ----------

  /** These elements stand at these positions, in order. */
  ghost predicate StandAt(attempts: seq<Attempt>, at: seq<nat>, picked: seq<Attempt>)
  {
    |at| == |picked| && (forall k :: 0 <= k < |at| ==> at[k] < |attempts| && picked[k] == attempts[at[k]]) &&
    forall j, k :: 0 <= j < k < |at| ==> at[j] < at[k]
  }

  lemma StandAtNext(attempts: seq<Attempt>, at: seq<nat>, picked: seq<Attempt>)
    requires attempts != [] && StandAt(attempts[..|attempts| - 1], at, picked)
    ensures StandAt(attempts, at, picked) && StandAt(attempts, at + [|attempts| - 1], picked + [Last(attempts)])
  {
  }

  lemma {:induction false} AttemptsStandAt(attempts: seq<Attempt>, m: ModelId) returns (at: seq<nat>)
    ensures StandAt(attempts, at, AttemptsOf(attempts, m))
    ensures forall j: nat :: j in at <==> j < |attempts| && attempts[j].model == Some(m)
  {
    at := [];
    if attempts != [] {
      var front := attempts[..|attempts| - 1];
      var before := AttemptsStandAt(front, m);
      StandAtNext(attempts, before, AttemptsOf(front, m));
      assert forall j: nat :: j in before <==> j < |front| && attempts[j].model == Some(m);
      if Last(attempts).model == Some(m) {
        at := before + [|attempts| - 1];
      } else {
        at := before;
        assert AttemptsOf(attempts, m) == AttemptsOf(front, m);
      }
    }
  }

  lemma LastStandsLast(attempts: seq<Attempt>, at: seq<nat>, picked: seq<Attempt>, j: nat)
    requires StandAt(attempts, at, picked) && j in at
    ensures picked != [] && Last(picked) == attempts[Last(at)] && j <= Last(at)
  {
    var k :| 0 <= k < |at| && at[k] == j;
    assert k < |at| - 1 ==> at[k] < at[|at| - 1];
  }

  /** The status of a candidate whose attempts are these. */
  lemma StatusFolds(e: CandidateStatus, attempts: seq<Attempt>, at: seq<nat>, own: seq<Attempt>,
                    quota: AttemptId -> bool)
    requires StandAt(attempts, at, own)
    ensures
      var c := Enriched(e, own, quota);
      c.model == e.model && (own == [] ==> c == e) &&
      (own != [] ==>
        |c.attemptIds| == |at| && (forall k :: 0 <= k < |at| ==> c.attemptIds[k] == attempts[at[k]].id) &&
        (Last(own).outcome.Some? ==>
          c.reason == Attempted(Last(own).outcome.value) &&
          (c.deferred <==> Last(own).outcome != Some(UnavailableBeforeInvocation) && quota(Last(own).id))))
  {
  }

  lemma AllSettled(attempts: seq<Attempt>, a: Attempt)
    requires WellLogged(attempts) && attempts != [] && Last(attempts).outcome.Some? && a in attempts
    ensures a.outcome.Some?
  {
    var i :| 0 <= i < |attempts| && attempts[i] == a;
  }

  /** Every ranked candidate of a reported chain: one that cannot serve the mode has no attempts; any other one lists
      the attempts that were reserved for its model, in their order, and the last of them says how it ended and whether
      it waits for a quota, which no unsent attempt does. */
  lemma StatusOfRanked(op: Operation, s: Surroundings, l: Ledger, switchedOff: seq<ModelId>, o: Outcome, i: nat)
    returns (at: seq<nat>)
    requires Finished(op, s, l, switchedOff, o) && Last(l.attempts).outcome.Some? && o.Unavailable? && o.chain.Some?
    requires i < |l.ranked|
    ensures |o.chain.value.candidates| == |l.ranked| + |switchedOff|
    ensures forall j, k :: 0 <= j < k < |at| ==> at[j] < at[k]
    ensures forall j: nat :: j in at <==> j < |l.attempts| && l.attempts[j].model == Some(l.ranked[i].model)
    ensures
      var c, m := o.chain.value.candidates[i], l.ranked[i].model;
      c.model == m && |c.attemptIds| == |at| &&
      (forall k :: 0 <= k < |at| ==> at[k] < |l.attempts| && c.attemptIds[k] == l.attempts[at[k]].id) &&
      if !l.ranked[i].supported then c == CandidateStatus(m, CannotServeMode, false, [])
      else
        at != [] &&
        var last := l.attempts[at[|at| - 1]];
        last.outcome.Some? && c.reason == Attempted(last.outcome.value) &&
        (c.deferred <==> last.outcome != Some(UnavailableBeforeInvocation) && s.quota(last.id))
  {
    at := RankedAttempts(op, s, l, switchedOff, o, i);
    var e, own := Evidence(l.ranked, l.cursor, switchedOff)[i], AttemptsOf(l.attempts, l.ranked[i].model);
    StatusFolds(e, l.attempts, at, own, s.quota);
    if own != [] {
      AllSettled(l.attempts, Last(own));
    }
  }

  lemma RankedAttempts(op: Operation, s: Surroundings, l: Ledger, switchedOff: seq<ModelId>, o: Outcome, i: nat)
    returns (at: seq<nat>)
    requires Finished(op, s, l, switchedOff, o) && Last(l.attempts).outcome.Some? && o.Unavailable? && o.chain.Some?
    requires i < |l.ranked|
    ensures StandAt(l.attempts, at, AttemptsOf(l.attempts, l.ranked[i].model))
    ensures forall j: nat :: j in at <==> j < |l.attempts| && l.attempts[j].model == Some(l.ranked[i].model)
    ensures |o.chain.value.candidates| == |l.ranked| + |switchedOff|
    ensures
      var e, own := Evidence(l.ranked, l.cursor, switchedOff)[i], AttemptsOf(l.attempts, l.ranked[i].model);
      o.chain.value.candidates[i] == Enriched(e, own, s.quota) && (own != [] <==> l.ranked[i].supported)
  {
    ExhaustedChainIsAttributed(op, s, l, switchedOff, o);
    RoundResults.ChainIsReported(op, s, l, switchedOff, o);
    at := AttemptsStandAt(l.attempts, l.ranked[i].model);
    if l.ranked[i].supported {
      RoundResults.SupportedIsCounted(l.ranked, l.ranked[i]);
      WalkedHasAttempts(l, l.ranked[i]);
    } else {
      UnsupportedHasNone(l, i);
    }
  }

  /** A switched-off model is listed behind them, as that and with no attempt. */
  lemma StatusOfSwitchedOff(op: Operation, s: Surroundings, l: Ledger, switchedOff: seq<ModelId>, o: Outcome, i: nat)
    requires Finished(op, s, l, switchedOff, o) && Last(l.attempts).outcome.Some? && o.Unavailable? && o.chain.Some?
    requires i < |switchedOff|
    ensures |o.chain.value.candidates| == |l.ranked| + |switchedOff|
    ensures o.chain.value.candidates[|l.ranked| + i] == CandidateStatus(switchedOff[i], ProviderDisabled, false, [])
  {
    ExhaustedChainIsAttributed(op, s, l, switchedOff, o);
    OffEvidence(o.chain.value.candidates, l, switchedOff, s.quota, i);
  }

  lemma OffEvidence(c: seq<CandidateStatus>, l: Ledger, switchedOff: seq<ModelId>, quota: AttemptId -> bool, i: nat)
    requires Attributed(c, l, switchedOff, quota) && i < |switchedOff|
    ensures c[|l.ranked| + i] == CandidateStatus(switchedOff[i], ProviderDisabled, false, [])
  {
    assert c[|l.ranked| + i] == Evidence(l.ranked, l.cursor, switchedOff)[|l.ranked| + i];
  }

  ghost predicate IdsStandAt(attempts: seq<Attempt>, at: seq<nat>, ids: seq<AttemptId>)
  {
    |at| == |ids| && (forall k :: 0 <= k < |at| ==> at[k] < |attempts| && ids[k] == attempts[at[k]].id) &&
    forall j, k :: 0 <= j < k < |at| ==> at[j] < at[k]
  }

  lemma IdsStandAtNext(attempts: seq<Attempt>, at: seq<nat>, ids: seq<AttemptId>)
    requires attempts != [] && IdsStandAt(attempts[..|attempts| - 1], at, ids)
    ensures IdsStandAt(attempts, at, ids) && IdsStandAt(attempts, at + [|attempts| - 1], ids + [Last(attempts).id])
  {
  }

  lemma {:induction false} UnclaimedStandAt(attempts: seq<Attempt>, claimed: set<AttemptId>) returns (at: seq<nat>)
    ensures IdsStandAt(attempts, at, Unclaimed(attempts, claimed))
    ensures forall j: nat :: j in at <==> j < |attempts| && attempts[j].id !in claimed
  {
    at := [];
    if attempts != [] {
      var front := attempts[..|attempts| - 1];
      var before := UnclaimedStandAt(front, claimed);
      IdsStandAtNext(attempts, before, Unclaimed(front, claimed));
      assert Unclaimed(front, claimed) + [] == Unclaimed(front, claimed);
      at := if Last(attempts).id in claimed then before else before + [|attempts| - 1];
    }
  }

  /** Besides, the chain lists the attempts without a reservation, in their order. */
  lemma ListedBesides(op: Operation, s: Surroundings, l: Ledger, switchedOff: seq<ModelId>, o: Outcome)
    returns (at: seq<nat>)
    requires Finished(op, s, l, switchedOff, o) && Last(l.attempts).outcome.Some? && o.Unavailable? && o.chain.Some?
    ensures |at| == |o.chain.value.unclaimed| && forall j, k :: 0 <= j < k < |at| ==> at[j] < at[k]
    ensures forall k :: 0 <= k < |at| ==> at[k] < |l.attempts| && o.chain.value.unclaimed[k] == l.attempts[at[k]].id
    ensures forall j: nat :: j in at <==> j < |l.attempts| && l.attempts[j].model.None?
  {
    RoundResults.ChainIsReported(op, s, l, switchedOff, o);
    var slots := SlotsOfExhausted(l, switchedOff);
    OffTrace(slots, switchedOff);
    UnclaimedAreUnreserved(l.attempts);
    var claimed := IdSet(ReservedOf(l.attempts));
    at := UnclaimedStandAt(l.attempts, claimed);
    UnclaimedAreTheRest(l.attempts, claimed);
    forall j: nat | j < |l.attempts|
      ensures l.attempts[j].id !in claimed <==> l.attempts[j].model.None?
    {
      assert l.attempts[j] in l.attempts && AttemptIds(l.attempts)[j] == l.attempts[j].id;
    }
  }

  /** And the chain counts as deferred exactly when no configured model is switched off and the last attempt of every
      candidate that can serve the mode was sent and failed on a usage limit. */
  lemma DeferredMeans(op: Operation, s: Surroundings, l: Ledger, switchedOff: seq<ModelId>, o: Outcome)
    requires Finished(op, s, l, switchedOff, o) && Last(l.attempts).outcome.Some? && o.Unavailable? && o.chain.Some?
    requires exists c :: c in l.ranked && c.supported
    ensures o.why.CandidatesDeferred? <==>
      switchedOff == [] &&
      forall c :: c in l.ranked && c.supported ==>
        exists j :: 0 <= j < |l.attempts| && l.attempts[j].model == Some(c.model) &&
          (forall k :: j < k < |l.attempts| ==> l.attempts[k].model != Some(c.model)) &&
          l.attempts[j].outcome != Some(UnavailableBeforeInvocation) && s.quota(l.attempts[j].id)
  {
    var c :| c in l.ranked && c.supported;
    RoundResults.SupportedIsCounted(l.ranked, c);
    DeferredExactlyWhen(op, s, l, switchedOff, o);
    AllLimits(s, l);
  }

  lemma AllLimits(s: Surroundings, l: Ledger)
    requires WellLogged(l.attempts) && l.attempts != [] && Last(l.attempts).outcome.Some?
    ensures AllAtTheirLimit(l, s.quota) <==> forall c :: c in l.ranked && c.supported ==> AtItsLimit(s, l, c.model)
  {
    forall i | 0 <= i < |l.ranked| && l.ranked[i].supported
      ensures
        var own := AttemptsOf(l.attempts, l.ranked[i].model);
        own != [] && UsageLimit(Last(own), s.quota) <==> AtItsLimit(s, l, l.ranked[i].model)
    {
      LimitOfLast(s, l, l.ranked[i].model);
    }
    forall c | c in l.ranked && c.supported
      ensures exists i :: 0 <= i < |l.ranked| && l.ranked[i] == c
    {
    }
  }

  ghost predicate AtItsLimit(s: Surroundings, l: Ledger, m: ModelId)
  {
    exists j :: 0 <= j < |l.attempts| && l.attempts[j].model == Some(m) &&
      (forall k :: j < k < |l.attempts| ==> l.attempts[k].model != Some(m)) &&
      l.attempts[j].outcome != Some(UnavailableBeforeInvocation) && s.quota(l.attempts[j].id)
  }

  lemma LimitOfLast(s: Surroundings, l: Ledger, m: ModelId)
    requires WellLogged(l.attempts) && l.attempts != [] && Last(l.attempts).outcome.Some?
    ensures
      var own := AttemptsOf(l.attempts, m);
      own != [] && UsageLimit(Last(own), s.quota) <==> AtItsLimit(s, l, m)
  {
    var own := AttemptsOf(l.attempts, m);
    var at := AttemptsStandAt(l.attempts, m);
    if own != [] {
      var n := Last(at);
      assert n in at && (n < |l.attempts| - 1 ==> l.attempts[n].outcome.Some?);
      forall k | n < k < |l.attempts|
        ensures l.attempts[k].model != Some(m)
      {
        if k in at {
          LastStandsLast(l.attempts, at, own, k);
        }
      }
    }
    if AtItsLimit(s, l, m) {
      var j :| 0 <= j < |l.attempts| && l.attempts[j].model == Some(m) &&
        (forall k :: j < k < |l.attempts| ==> l.attempts[k].model != Some(m)) &&
        l.attempts[j].outcome != Some(UnavailableBeforeInvocation) && s.quota(l.attempts[j].id);
      LastStandsLast(l.attempts, at, own, j);
      assert Last(at) in at;
    }
  }
}
