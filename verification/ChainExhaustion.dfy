/** Chain-exhaustion evidence (`enrichChainExhaustionWithAttemptOutcomesV1` in
    src/actions/taskActionCoordinatorV1.ts): hand every recorded attempt of an exhausted chain to the ranked
    candidate it belongs to. */
module ChainExhaustion {
  import opened Wrappers
  import opened ProviderSelection
  import opened TaskOutcome

  /** The attempts that got a reservation, in allocation order. */
  function ReservedOf(attempts: seq<Attempt>): (r: seq<Attempt>)
    ensures forall a :: a in r <==> a in attempts && a.model.Some?
  {
    if attempts == [] then []
    else ReservedOf(attempts[..|attempts| - 1]) + (if Last(attempts).model.Some? then [Last(attempts)] else [])
  }

  function AttemptIds(attempts: seq<Attempt>): (ids: seq<AttemptId>)
    ensures |ids| == |attempts|
    ensures forall i :: 0 <= i < |ids| ==> ids[i] == attempts[i].id
  {
    seq(|attempts|, i requires 0 <= i < |attempts| => attempts[i].id)
  }

  // ---------- the cursor walk, as a function ----------

  /** How many attempts at the front are retries. */
  function RetryRun(reserved: seq<Attempt>, retries: set<AttemptId>): (n: nat)
    ensures n <= |reserved|
  {
    if reserved == [] || reserved[0].id !in retries then 0 else 1 + RetryRun(reserved[1..], retries)
  }

  /** How many attempts at the front the next candidate consumes. */
  function Consumed(model: ModelId, reserved: seq<Attempt>, retries: set<AttemptId>): (n: nat)
    ensures n <= |reserved|
  {
    if reserved == [] || reserved[0].model != Some(model) then 0 else 1 + RetryRun(reserved[1..], retries)
  }

  /** The attempts each candidate consumes. */
  function Claims(models: seq<ModelId>, reserved: seq<Attempt>, retries: set<AttemptId>): (c: seq<seq<Attempt>>)
    ensures |c| == |models|
  {
    if models == [] then []
    else
      var n := Consumed(models[0], reserved, retries);
      [reserved[..n]] + Claims(models[1..], reserved[n..], retries)
  }

  function Flatten<T>(ss: seq<seq<T>>): seq<T>
  {
    if ss == [] then [] else ss[0] + Flatten(ss[1..])
  }

  /** Did the attempt fail with a text that says usage limit? An attempt that was never sent has no text. */
  predicate UsageLimit(a: Attempt, quota: AttemptId -> bool)
  {
    a.outcome.Some? && !a.outcome.value.UnavailableBeforeInvocation? && quota(a.id)
  }

  /** A status after its attempts were folded in; the last attempt speaks for all of them. */
  function Enriched(s: CandidateStatus, own: seq<Attempt>, quota: AttemptId -> bool): CandidateStatus
  {
    if own == [] then s
    else if Last(own).outcome.None? then s.(attemptIds := AttemptIds(own))
    else
      s.(reason := Attempted(Last(own).outcome.value), deferred := UsageLimit(Last(own), quota),
         attemptIds := AttemptIds(own))
  }

  function Models(candidates: seq<CandidateStatus>): (ms: seq<ModelId>)
    ensures |ms| == |candidates|
    ensures forall i :: 0 <= i < |ms| ==> ms[i] == candidates[i].model
  {
    seq(|candidates|, i requires 0 <= i < |candidates| => candidates[i].model)
  }

  function IdSet(attempts: seq<Attempt>): set<AttemptId> { set a | a in attempts :: a.id }

  /** The attempts of the log that no candidate consumed. */
  function Unclaimed(attempts: seq<Attempt>, claimed: set<AttemptId>): seq<AttemptId>
  {
    if attempts == [] then []
    else
      Unclaimed(attempts[..|attempts| - 1], claimed) +
      (if Last(attempts).id in claimed then [] else [Last(attempts).id])
  }

  // ---------- the program ----------

  lemma ClaimsNext(models: seq<ModelId>, reserved: seq<Attempt>, retries: set<AttemptId>, i: nat, cursor: nat)
    requires i < |models| && cursor <= |reserved|
    ensures
      var n := Consumed(models[i], reserved[cursor..], retries);
      Claims(models[i..], reserved[cursor..], retries) ==
        [reserved[cursor..cursor + n]] + Claims(models[i + 1..], reserved[cursor + n..], retries)
  {
    var n := Consumed(models[i], reserved[cursor..], retries);
    assert models[i..][1..] == models[i + 1..];
    assert reserved[cursor..][..n] == reserved[cursor..cursor + n];
    assert reserved[cursor..][n..] == reserved[cursor + n..];
  }

  /** Fold in the retries that follow the attempt just consumed at `first`. */
  method SkipRetries(reserved: seq<Attempt>, retries: set<AttemptId>, first: nat) returns (cursor: nat)
    requires first < |reserved|
    ensures cursor == first + 1 + RetryRun(reserved[first + 1..], retries)
  {
    cursor := first + 1;
    while cursor < |reserved| && reserved[cursor].id in retries
      invariant first + 1 <= cursor <= |reserved|
      invariant first + 1 + RetryRun(reserved[first + 1..], retries) == cursor + RetryRun(reserved[cursor..], retries)
    {
      assert reserved[cursor..][1..] == reserved[cursor + 1..];
      cursor := cursor + 1;
    }
  }

  /** The attempts from `cursor` on that the next candidate consumes. */
  method ConsumeNext(model: ModelId, reserved: seq<Attempt>, retries: set<AttemptId>, first: nat) returns (cursor: nat)
    requires first <= |reserved|
    ensures cursor == first + Consumed(model, reserved[first..], retries)
  {
    cursor := first;
    if cursor < |reserved| && reserved[cursor].model == Some(model) {
      assert reserved[cursor..][1..] == reserved[cursor + 1..];
      cursor := SkipRetries(reserved, retries, cursor);
    }
  }

  lemma FlattenFrom<T>(ss: seq<seq<T>>, i: nat)
    requires i < |ss|
    ensures ss[i..] == [ss[i]] + ss[i + 1..] && Flatten(ss[i..]) == ss[i] + Flatten(ss[i + 1..])
  {
    assert ss[i..] == [ss[i]] + ss[i + 1..];
    assert ss[i..][1..] == ss[i + 1..];
  }

  /** Where the walk stands: the candidates before `i` have consumed `claimed`, the rest will consume the remainder. */
  ghost predicate Walking(claims: seq<seq<Attempt>>, models: seq<ModelId>, reserved: seq<Attempt>,
                          retries: set<AttemptId>,
                          i: nat, cursor: nat, claimed: seq<Attempt>)
  {
    i <= |models| == |claims| && cursor <= |reserved| &&
    claims[i..] == Claims(models[i..], reserved[cursor..], retries) && Flatten(claims) == claimed + Flatten(claims[i..])
  }

  lemma WalkStarts(models: seq<ModelId>, reserved: seq<Attempt>, retries: set<AttemptId>)
    ensures Walking(Claims(models, reserved, retries), models, reserved, retries, 0, 0, [])
  {
    var claims := Claims(models, reserved, retries);
    assert models[0..] == models && reserved[0..] == reserved && claims[0..] == claims;
    assert [] + Flatten(claims) == Flatten(claims);
  }

  lemma WalkEnds(claims: seq<seq<Attempt>>, models: seq<ModelId>, reserved: seq<Attempt>, retries: set<AttemptId>,
                 cursor: nat, claimed: seq<Attempt>)
    requires Walking(claims, models, reserved, retries, |models|, cursor, claimed)
    ensures claimed == Flatten(claims)
  {
    assert claims[|models|..] == [];
    assert claimed + [] == claimed;
  }

  lemma WalkOn(claims: seq<seq<Attempt>>, models: seq<ModelId>, reserved: seq<Attempt>, retries: set<AttemptId>,
               i: nat, cursor: nat, claimed: seq<Attempt>)
    requires i < |models| && Walking(claims, models, reserved, retries, i, cursor, claimed)
    ensures
      var cursor' := cursor + Consumed(models[i], reserved[cursor..], retries);
      cursor' <= |reserved| && claims[i] == reserved[cursor..cursor'] &&
      Walking(claims, models, reserved, retries, i + 1, cursor', claimed + reserved[cursor..cursor'])
  {
    var cursor' := cursor + Consumed(models[i], reserved[cursor..], retries);
    var own := reserved[cursor..cursor'];
    var tail := Claims(models[i + 1..], reserved[cursor'..], retries);
    assert claims[i..] == [own] + tail by {
      ClaimsNext(models, reserved, retries, i, cursor);
    }
    FlattenFrom(claims, i);
    assert claims[i] == ([own] + tail)[0] == own;
    assert claims[i + 1..] == ([own] + tail)[1..] == tail;
    Joined(claimed, own, Flatten(claims[i + 1..]));
  }

  ghost predicate EnrichedBy(chain: Chain, candidates: seq<CandidateStatus>, attempts: seq<Attempt>,
                             claims: seq<seq<Attempt>>,
                             quota: AttemptId -> bool)
  {
    |chain.candidates| == |candidates| == |claims| &&
    (forall i :: 0 <= i < |candidates| ==> chain.candidates[i] == Enriched(candidates[i], claims[i], quota)) &&
    chain.unclaimed == Unclaimed(attempts, IdSet(Flatten(claims)))
  }

  /** The first `i` statuses are done. */
  ghost predicate EnrichedFirst(out: seq<CandidateStatus>, candidates: seq<CandidateStatus>, claims: seq<seq<Attempt>>,
                                quota: AttemptId -> bool, i: nat)
  {
    |out| == i <= |candidates| == |claims| &&
    forall k :: 0 <= k < i ==> out[k] == Enriched(candidates[k], claims[k], quota)
  }

  lemma EnrichedNext(out: seq<CandidateStatus>, candidates: seq<CandidateStatus>, claims: seq<seq<Attempt>>,
                     quota: AttemptId -> bool, i: nat, own: seq<Attempt>)
    requires EnrichedFirst(out, candidates, claims, quota, i) && i < |candidates| && claims[i] == own
    ensures EnrichedFirst(out + [Enriched(candidates[i], own, quota)], candidates, claims, quota, i + 1)
  {
  }

  method Enrich(candidates: seq<CandidateStatus>, attempts: seq<Attempt>, retries: set<AttemptId>,
                quota: AttemptId -> bool)
    returns (chain: Chain)
    ensures EnrichedBy(chain, candidates, attempts, Claims(Models(candidates), ReservedOf(attempts), retries), quota)
  {
    var reserved := ReservedOf(attempts);
    ghost var models := Models(candidates);
    ghost var claims := Claims(models, reserved, retries);
    var out, claimed := WalkCandidates(candidates, models, reserved, retries, quota, claims);
    chain := Chain(out, Unclaimed(attempts, IdSet(claimed)));
  }

  /** One candidate's turn of the walk. */
  method ConsumeCandidate(ghost models: seq<ModelId>, reserved: seq<Attempt>, retries: set<AttemptId>, ghost i: nat,
                          first: nat,
                          ghost claimed: seq<Attempt>, ghost claims: seq<seq<Attempt>>, model: ModelId)
    returns (own: seq<Attempt>, cursor: nat)
    requires i < |models| && models[i] == model && Walking(claims, models, reserved, retries, i, first, claimed)
    ensures claims[i] == own && Walking(claims, models, reserved, retries, i + 1, cursor, claimed + own)
  {
    WalkOn(claims, models, reserved, retries, i, first, claimed);
    cursor := ConsumeNext(model, reserved, retries, first);
    own := reserved[first..cursor];
  }

  /** `exhaustion.candidates.map(...)` with its cursor over the reserved attempts. */
  method WalkCandidates(candidates: seq<CandidateStatus>, ghost models: seq<ModelId>, reserved: seq<Attempt>,
                        retries: set<AttemptId>,
                        quota: AttemptId -> bool, ghost claims: seq<seq<Attempt>>)
    returns (out: seq<CandidateStatus>, claimed: seq<Attempt>)
    requires models == Models(candidates) && claims == Claims(models, reserved, retries)
    ensures EnrichedFirst(out, candidates, claims, quota, |candidates|) && claimed == Flatten(claims)
  {
    var cursor := 0;
    out, claimed := [], [];
    WalkStarts(models, reserved, retries);
    for i := 0 to |candidates|
      invariant Walking(claims, models, reserved, retries, i, cursor, claimed)
      invariant EnrichedFirst(out, candidates, claims, quota, i)
    {
      var own;
      own, cursor := ConsumeCandidate(models, reserved, retries, i, cursor, claimed, claims, candidates[i].model);
      EnrichedNext(out, candidates, claims, quota, i, own);
      out := out + [Enriched(candidates[i], own, quota)];
      claimed := claimed + own;
    }
    WalkEnds(claims, models, reserved, retries, cursor, claimed);
  }

  // ---------- nothing is given twice, nothing is lost ----------

  /** What the candidates consume, one after the other, is a front piece of the reserved attempts. */
  lemma {:induction false} ClaimsAreAPrefix(models: seq<ModelId>, reserved: seq<Attempt>, retries: set<AttemptId>)
    ensures Flatten(Claims(models, reserved, retries)) <= reserved
  {
    if models != [] {
      var n := Consumed(models[0], reserved, retries);
      ClaimsAreAPrefix(models[1..], reserved[n..], retries);
      assert reserved == reserved[..n] + reserved[n..];
      var c := Claims(models, reserved, retries);
      assert c[0] == reserved[..n] && c[1..] == Claims(models[1..], reserved[n..], retries);
    }
  }

  lemma {:induction false} UnclaimedAreTheRest(attempts: seq<Attempt>, claimed: set<AttemptId>)
    ensures forall id :: id in Unclaimed(attempts, claimed) <==> id in AttemptIds(attempts) && id !in claimed
    ensures Distinct(AttemptIds(attempts)) ==> Distinct(Unclaimed(attempts, claimed))
  {
    if attempts != [] {
      var m := |attempts| - 1;
      UnclaimedAreTheRest(attempts[..m], claimed);
      assert AttemptIds(attempts) == AttemptIds(attempts[..m]) + [attempts[m].id];
      if Distinct(AttemptIds(attempts)) {
        assert forall i :: 0 <= i < m ==> AttemptIds(attempts)[i] != AttemptIds(attempts)[m];
        assert attempts[m].id !in AttemptIds(attempts[..m]);
        assert Distinct(AttemptIds(attempts[..m])) by {
          assert forall i :: 0 <= i < m ==> AttemptIds(attempts[..m])[i] == AttemptIds(attempts)[i];
        }
      }
    }
  }

  lemma DistinctGrows(front: seq<Attempt>, a: Attempt)
    ensures AttemptIds(front + [a]) == AttemptIds(front) + [a.id]
    ensures Distinct(AttemptIds(front + [a])) <==> Distinct(AttemptIds(front)) && a.id !in AttemptIds(front)
  {
    var ids, more := AttemptIds(front), AttemptIds(front + [a]);
    assert more == ids + [a.id];
    if Distinct(more) {
      assert forall i :: 0 <= i < |ids| ==> ids[i] == more[i] && more[i] != more[|ids|];
    }
  }

  lemma {:induction false} ReservedIdsDistinct(attempts: seq<Attempt>)
    requires Distinct(AttemptIds(attempts))
    ensures Distinct(AttemptIds(ReservedOf(attempts)))
    ensures forall id :: id in AttemptIds(ReservedOf(attempts)) ==> id in AttemptIds(attempts)
  {
    if attempts != [] {
      var front, a := attempts[..|attempts| - 1], Last(attempts);
      assert attempts == front + [a];
      DistinctGrows(front, a);
      ReservedIdsDistinct(front);
      DistinctGrows(ReservedOf(front), a);
    }
  }

  /** Every recorded attempt is in exactly one place: no attempt goes to two candidates or twice to one, and the
      claimed ones together with the unclaimed ones are all of them. */
  lemma AttemptsArePartitioned(models: seq<ModelId>, attempts: seq<Attempt>, retries: set<AttemptId>)
    requires Distinct(AttemptIds(attempts))
    ensures
      var claimed := Flatten(Claims(models, ReservedOf(attempts), retries));
      var claimedIds := IdSet(claimed);
      var rest := Unclaimed(attempts, claimedIds);
      Distinct(AttemptIds(claimed)) && Distinct(rest) &&
      (forall id :: id in AttemptIds(attempts) <==> id in claimedIds || id in rest) &&
      (forall id :: !(id in claimedIds && id in rest))
  {
    var reserved := ReservedOf(attempts);
    var claimed := Flatten(Claims(models, reserved, retries));
    ClaimsAreAPrefix(models, reserved, retries);
    ReservedIdsDistinct(attempts);
    assert forall i :: 0 <= i < |claimed| ==> AttemptIds(claimed)[i] == AttemptIds(reserved)[i];
    var claimedIds := IdSet(claimed);
    UnclaimedAreTheRest(attempts, claimedIds);
    forall id | id in claimedIds
      ensures id in AttemptIds(attempts)
    {
      var a :| a in claimed && a.id == id;
      assert a in reserved && a in attempts;
      var i :| 0 <= i < |attempts| && attempts[i] == a;
      assert AttemptIds(attempts)[i] == id;
    }
  }

  // ---------- when every candidate gets exactly its own attempts ----------

  /** One ranked candidate and what selection really did with it: passed over, or reserved and then retried. */
  datatype Slot = Slot(model: ModelId, own: seq<Attempt>)

  ghost predicate OwnGroup(s: Slot, retries: set<AttemptId>)
  {
    s.own == [] ||
    (s.own[0].model == Some(s.model) && s.own[0].id !in retries &&
     forall i :: 1 <= i < |s.own| ==> s.own[i].id in retries)
  }

  ghost predicate WellWalked(slots: seq<Slot>, retries: set<AttemptId>)
  {
    forall i :: 0 <= i < |slots| ==> OwnGroup(slots[i], retries)
  }

  function SlotModels(slots: seq<Slot>): (ms: seq<ModelId>)
    ensures |ms| == |slots|
  {
    if slots == [] then [] else [slots[0].model] + SlotModels(slots[1..])
  }

  function Groups(slots: seq<Slot>): (gs: seq<seq<Attempt>>)
    ensures |gs| == |slots|
  {
    if slots == [] then [] else [slots[0].own] + Groups(slots[1..])
  }

  function Trace(slots: seq<Slot>): seq<Attempt> { Flatten(Groups(slots)) }

  /** The model of the next candidate that was reserved. */
  function NextReserved(slots: seq<Slot>): Option<ModelId>
  {
    if slots == [] then None else if slots[0].own != [] then Some(slots[0].model) else NextReserved(slots[1..])
  }

  /** No candidate that was passed over shares the model id of the next reserved one. */
  ghost predicate NoSharedSkip(slots: seq<Slot>)
  {
    slots == [] ||
    ((slots[0].own == [] ==> NextReserved(slots[1..]) != Some(slots[0].model)) && NoSharedSkip(slots[1..]))
  }

  lemma {:induction false} RetryRunIs(group: seq<Attempt>, rest: seq<Attempt>, retries: set<AttemptId>)
    requires forall i :: 0 <= i < |group| ==> group[i].id in retries
    requires rest != [] ==> rest[0].id !in retries
    ensures RetryRun(group + rest, retries) == |group|
  {
    if group == [] {
      assert group + rest == rest;
    } else {
      assert (group + rest)[1..] == group[1..] + rest;
      RetryRunIs(group[1..], rest, retries);
    }
  }

  lemma {:induction false} TraceStarts(slots: seq<Slot>, retries: set<AttemptId>)
    requires WellWalked(slots, retries)
    ensures Trace(slots) != [] ==> Trace(slots)[0].id !in retries
    ensures Trace(slots) != [] ==> Trace(slots)[0].model.Some? && NextReserved(slots) == Trace(slots)[0].model
    ensures Trace(slots) == [] ==> NextReserved(slots).None?
  {
    if slots != [] {
      assert Groups(slots)[1..] == Groups(slots[1..]);
      TraceStarts(slots[1..], retries);
    }
  }

  lemma TraceSplits(slots: seq<Slot>, retries: set<AttemptId>)
    requires slots != [] && WellWalked(slots, retries)
    ensures Trace(slots) == slots[0].own + Trace(slots[1..])
    ensures WellWalked(slots[1..], retries) && OwnGroup(slots[0], retries)
  {
    assert Groups(slots)[1..] == Groups(slots[1..]);
    assert forall i :: 0 <= i < |slots[1..]| ==> slots[1..][i] == slots[i + 1];
  }

  lemma OwnIsConsumed(s: Slot, rest: seq<Attempt>, retries: set<AttemptId>)
    requires OwnGroup(s, retries) && s.own != []
    requires rest != [] ==> rest[0].id !in retries
    ensures Consumed(s.model, s.own + rest, retries) == |s.own|
  {
    assert (s.own + rest)[1..] == s.own[1..] + rest;
    RetryRunIs(s.own[1..], rest, retries);
  }

  lemma HeadConsumes(slots: seq<Slot>, retries: set<AttemptId>)
    requires slots != [] && WellWalked(slots, retries)
    ensures
      var s, t, rest := slots[0], Trace(slots), slots[1..];
      var n := Consumed(s.model, t, retries);
      t == s.own + Trace(rest) &&
      (s.own != [] ==> n == |s.own|) &&
      (s.own == [] ==> (n == 0 <==> NextReserved(rest) != Some(s.model)))
  {
    var s, rest := slots[0], slots[1..];
    TraceSplits(slots, retries);
    TraceStarts(rest, retries);
    if s.own != [] {
      OwnIsConsumed(s, Trace(rest), retries);
    } else {
      assert s.own + Trace(rest) == Trace(rest);
    }
  }

  lemma SamePairs<T>(a: T, b: T, x: seq<T>, y: seq<T>)
    ensures [a] + x == [b] + y <==> a == b && x == y
  {
    assert ([a] + x)[1..] == x && ([b] + y)[1..] == y;
    assert ([a] + x)[0] == a && ([b] + y)[0] == b;
  }

  /** Every candidate gets exactly its own attempts, exactly when no passed-over candidate shares the next
      reserved one's model id. */
  lemma {:induction false} OwnAttemptsExactlyWhen(slots: seq<Slot>, retries: set<AttemptId>)
    requires WellWalked(slots, retries)
    ensures Claims(SlotModels(slots), Trace(slots), retries) == Groups(slots) <==> NoSharedSkip(slots)
  {
    if slots != [] {
      var s, t, rest := slots[0], Trace(slots), slots[1..];
      var n := Consumed(s.model, t, retries);
      HeadConsumes(slots, retries);
      OwnAttemptsExactlyWhen(rest, retries);
      assert SlotModels(slots)[1..] == SlotModels(rest);
      SamePairs(t[..n], s.own, Claims(SlotModels(rest), t[n..], retries), Groups(rest));
      if n == |s.own| {
        assert t[..n] == s.own && t[n..] == Trace(rest);
      } else {
        assert |t[..n]| != |s.own|;
      }
    }
  }

  lemma {:induction false} NextReservedIsListed(slots: seq<Slot>)
    ensures NextReserved(slots).Some? ==> NextReserved(slots).value in SlotModels(slots)
  {
    if slots != [] && slots[0].own == [] {
      NextReservedIsListed(slots[1..]);
    }
  }

  /** A ranking that names no model twice, as the registry's, always meets the condition. */
  lemma {:induction false} DistinctModelsNeverShared(slots: seq<Slot>)
    requires forall i, j :: 0 <= i < j < |slots| ==> SlotModels(slots)[i] != SlotModels(slots)[j]
    ensures NoSharedSkip(slots)
  {
    if slots != [] {
      var ms, rest := SlotModels(slots), slots[1..];
      assert ms[1..] == SlotModels(rest);
      assert forall i :: 0 <= i < |rest| ==> SlotModels(rest)[i] == ms[i + 1];
      DistinctModelsNeverShared(rest);
      NextReservedIsListed(rest);
      assert forall i :: 0 <= i < |rest| ==> ms[0] != SlotModels(rest)[i];
    }
  }

  /** A selection from elsewhere may rank two candidates under one model id: when it passes the first one over, the
      second one's attempt goes to the first. */
  lemma SharedModelIsMisattributed(id: AttemptId)
    ensures
      var a := Attempt(id, Some("m"), true, true, Some(FailedBeforeResponse));
      Claims(["m", "m"], [a], {}) == [[a], []]
  {
    var a := Attempt(id, Some("m"), true, true, Some(FailedBeforeResponse));
    assert Claims(["m"], [], {}) == [[]] by {
      assert ["m"][1..] == [];
    }
    assert [a][1..] == [] && ["m", "m"][1..] == ["m"];
    assert [a][..1] == [a];
  }
}
