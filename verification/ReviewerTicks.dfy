/** Reviewer-verified ticks (src/commands/applyReviewerVerifiedTicks.ts): which verified plan items a
    card may still apply, which lines a tick changed, and the undo that puts them back. */
module ReviewerTicks {
  import opened Wrappers

  // ---------- scoping to what the card offered ----------

  /** A verified, still unticked plan item; a plain text entry has no issued id. */
  datatype Target = Target(text: string, itemId: Option<string>)

  /** An issued id counts only when it is there and not the empty string. */
  predicate Issued(id: Option<string>) { id.Some? && id.value != "" }

  /** What a card offered: the wordings, and for newer cards the issued id of each. */
  datatype Offer = Offer(items: seq<string>, ids: Option<seq<Option<string>>>) {
    predicate IdsAligned() { ids.Some? && |ids.value| == |items| }

    /** The id that item `i` was offered under, if any. */
    function OfferedId(i: nat): Option<string>
      requires i < |items|
    {
      if IdsAligned() && Issued(ids.value[i]) then ids.value[i] else None
    }
  }

  predicate ById(offer: Offer, target: Target) { offer.IdsAligned() && Issued(target.itemId) }

  ghost predicate IdOffered(offer: Offer, id: string)
  {
    exists i :: 0 <= i < |offer.items| && offer.OfferedId(i) == Some(id)
  }

  /** How often a wording was offered without an id among the first `n` items. */
  function TimesOffered(offer: Offer, norm: string -> string, key: string, n: nat): (r: nat)
    requires n <= |offer.items|
    ensures r <= n
  {
    if n == 0 then 0
    else TimesOffered(offer, norm, key, n - 1) +
         (if offer.OfferedId(n - 1).None? && norm(offer.items[n - 1]) == key then 1 else 0)
  }

  /** How many of the first `n` targets are matched by this wording. */
  function TimesPresent(offer: Offer, norm: string -> string, targets: seq<Target>, key: string, n: nat): (r: nat)
    requires n <= |targets|
    ensures r <= n
  {
    if n == 0 then 0
    else TimesPresent(offer, norm, targets, key, n - 1) +
         (if !ById(offer, targets[n - 1]) && norm(targets[n - 1].text) == key then 1 else 0)
  }

  /** The rule: an offered id passes its item; a wording passes its earliest occurrences, as often as it was offered. */
  ghost predicate Passes(offer: Offer, norm: string -> string, targets: seq<Target>, i: nat)
    requires i < |targets|
  {
    if ById(offer, targets[i]) then IdOffered(offer, targets[i].itemId.value)
    else
      var key := norm(targets[i].text);
      TimesPresent(offer, norm, targets, key, i) < TimesOffered(offer, norm, key, |offer.items|)
  }

  /** The targets among the first `n` that pass, in order. */
  ghost function Passing(offer: Offer, norm: string -> string, targets: seq<Target>, n: nat): seq<Target>
    requires n <= |targets|
  {
    if n == 0 then []
    else Passing(offer, norm, targets, n - 1) + (if Passes(offer, norm, targets, n - 1) then [targets[n - 1]] else [])
  }

  function Min(a: nat, b: nat): nat { if a < b then a else b }

  function Remaining(offered: nat, used: nat): nat { if used < offered then offered - used else 0 }

  /** `budget.get(key) ?? 0`. */
  function Left(budget: map<string, nat>, key: string): nat { if key in budget then budget[key] else 0 }

  /** The offered ids as a set, and the mutable budget left per wording. */
  method ReadOffer(offer: Offer, norm: string -> string) returns (ids: set<string>, budget: map<string, nat>)
    ensures forall id :: id in ids <==> IdOffered(offer, id)
    ensures forall key :: Left(budget, key) == TimesOffered(offer, norm, key, |offer.items|)
  {
    ids, budget := {}, map[];
    for index := 0 to |offer.items|
      invariant forall id :: id in ids <==> exists i :: 0 <= i < index && offer.OfferedId(i) == Some(id)
      invariant forall key :: Left(budget, key) == TimesOffered(offer, norm, key, index)
    {
      var offeredId := offer.OfferedId(index);
      if offeredId.Some? {
        ids := ids + {offeredId.value};
      } else {
        var key := norm(offer.items[index]);
        budget := budget[key := Left(budget, key) + 1];
      }
    }
  }

  /** What is left of the budget once the first `n` targets were looked at. */
  ghost predicate BudgetFits(o: Offer, norm: string -> string, targets: seq<Target>, n: nat, budget: map<string, nat>)
  {
    n <= |targets| &&
    forall key ::
      Left(budget, key) ==
      Remaining(TimesOffered(o, norm, key, |o.items|), TimesPresent(o, norm, targets, key, n))
  }

  lemma BudgetKept(o: Offer, norm: string -> string, targets: seq<Target>, n: nat, budget: map<string, nat>)
    requires n < |targets| && BudgetFits(o, norm, targets, n, budget) && ById(o, targets[n])
    ensures BudgetFits(o, norm, targets, n + 1, budget)
  {
    forall key
      ensures TimesPresent(o, norm, targets, key, n + 1) == TimesPresent(o, norm, targets, key, n)
    {
    }
  }

  lemma BudgetSpent(o: Offer, norm: string -> string, targets: seq<Target>, n: nat, budget: map<string, nat>)
    requires n < |targets| && BudgetFits(o, norm, targets, n, budget) && !ById(o, targets[n])
    ensures
      var key := norm(targets[n].text);
      var left := Left(budget, key);
      (left > 0 <==> Passes(o, norm, targets, n)) &&
      BudgetFits(o, norm, targets, n + 1, if left > 0 then budget[key := left - 1] else budget)
  {
    var key := norm(targets[n].text);
    forall k
      ensures
        TimesPresent(o, norm, targets, k, n + 1) ==
        TimesPresent(o, norm, targets, k, n) + (if k == key then 1 else 0)
    {
    }
  }

  lemma {:induction false} TimesPresentCounts(offer: Offer, norm: string -> string, targets: seq<Target>, key: string,
                                              n: nat)
    requires n <= |targets|
    ensures TimesPresent(offer, norm, targets, key, n) ==
      |set j | 0 <= j < n && !ById(offer, targets[j]) && norm(targets[j].text) == key|
  {
    if n > 0 {
      TimesPresentCounts(offer, norm, targets, key, n - 1);
      var before := set j | 0 <= j < n - 1 && !ById(offer, targets[j]) && norm(targets[j].text) == key;
      var all := set j | 0 <= j < n && !ById(offer, targets[j]) && norm(targets[j].text) == key;
      if !ById(offer, targets[n - 1]) && norm(targets[n - 1].text) == key {
        assert n - 1 !in before && all == before + {n - 1};
      } else {
        assert all == before;
      }
    }
  }

  lemma {:induction false} TimesOfferedCounts(offer: Offer, norm: string -> string, key: string, n: nat)
    requires n <= |offer.items|
    ensures TimesOffered(offer, norm, key, n) ==
      |set k | 0 <= k < n && offer.OfferedId(k).None? && norm(offer.items[k]) == key|
  {
    if n > 0 {
      TimesOfferedCounts(offer, norm, key, n - 1);
      var before := set k | 0 <= k < n - 1 && offer.OfferedId(k).None? && norm(offer.items[k]) == key;
      var all := set k | 0 <= k < n && offer.OfferedId(k).None? && norm(offer.items[k]) == key;
      if offer.OfferedId(n - 1).None? && norm(offer.items[n - 1]) == key {
        assert n - 1 !in before && all == before + {n - 1};
      } else {
        assert all == before;
      }
    }
  }

  /** Without ids for all items, wordings alone decide. */
  lemma PassesByWording(offer: Offer, norm: string -> string, targets: seq<Target>, i: nat)
    requires i < |targets| && (offer.ids.None? || |offer.ids.value| != |offer.items|)
    ensures Passes(offer, norm, targets, i) <==>
      |set j | 0 <= j < i && norm(targets[j].text) == norm(targets[i].text)| <
      |set k | 0 <= k < |offer.items| && norm(offer.items[k]) == norm(targets[i].text)|
  {
    var key := norm(targets[i].text);
    TimesPresentCounts(offer, norm, targets, key, i);
    TimesOfferedCounts(offer, norm, key, |offer.items|);
    assert (set j | 0 <= j < i && !ById(offer, targets[j]) && norm(targets[j].text) == key) ==
           set j | 0 <= j < i && norm(targets[j].text) == key;
    assert (set k | 0 <= k < |offer.items| && offer.OfferedId(k).None? && norm(offer.items[k]) == key) ==
           set k | 0 <= k < |offer.items| && norm(offer.items[k]) == key;
  }

  /** With an id for every item, an issued target passes by its id, and any other by its wording among the others. */
  lemma PassesByIdOrWording(offer: Offer, norm: string -> string, targets: seq<Target>, i: nat)
    requires i < |targets| && offer.ids.Some? && |offer.ids.value| == |offer.items|
    ensures Passes(offer, norm, targets, i) <==>
      if targets[i].itemId.Some? && targets[i].itemId.value != "" then targets[i].itemId in offer.ids.value
      else
        var plain := (id: Option<string>) => id.None? || id.value == "";
        |set j | 0 <= j < i && plain(targets[j].itemId) && norm(targets[j].text) == norm(targets[i].text)| <
        |set k | 0 <= k < |offer.items| && plain(offer.ids.value[k]) && norm(offer.items[k]) == norm(targets[i].text)|
  {
    var key := norm(targets[i].text);
    if ById(offer, targets[i]) {
      if IdOffered(offer, targets[i].itemId.value) {
        var k :| 0 <= k < |offer.items| && offer.OfferedId(k) == targets[i].itemId;
        assert offer.ids.value[k] == targets[i].itemId;
      }
      if targets[i].itemId in offer.ids.value {
        var k :| 0 <= k < |offer.items| && offer.ids.value[k] == targets[i].itemId;
        assert offer.OfferedId(k) == targets[i].itemId;
      }
    } else {
      TimesPresentCounts(offer, norm, targets, key, i);
      TimesOfferedCounts(offer, norm, key, |offer.items|);
      var plain := (id: Option<string>) => id.None? || id.value == "";
      assert forall k :: 0 <= k < |offer.items| ==> (offer.OfferedId(k).None? <==> plain(offer.ids.value[k]));
      assert (set j | 0 <= j < i && !ById(offer, targets[j]) && norm(targets[j].text) == key) ==
             set j | 0 <= j < i && plain(targets[j].itemId) && norm(targets[j].text) == key;
      assert (set k | 0 <= k < |offer.items| && offer.OfferedId(k).None? && norm(offer.items[k]) == key) ==
             set k | 0 <= k < |offer.items| && plain(offer.ids.value[k]) && norm(offer.items[k]) == key;
    }
  }

  /** Where the passing targets stand. */
  ghost function PassingAt(offer: Offer, norm: string -> string, targets: seq<Target>, n: nat): seq<nat>
    requires n <= |targets|
  {
    if n == 0 then []
    else PassingAt(offer, norm, targets, n - 1) + (if Passes(offer, norm, targets, n - 1) then [n - 1] else [])
  }

  ghost predicate PickedAt(targets: seq<Target>, at: seq<nat>, picked: seq<Target>, n: nat)
    requires n <= |targets|
  {
    |at| == |picked| && (forall k :: 0 <= k < |at| ==> at[k] < n && picked[k] == targets[at[k]]) &&
    (forall j, k :: 0 <= j < k < |at| ==> at[j] < at[k])
  }

  lemma PickedAtNext(targets: seq<Target>, at: seq<nat>, picked: seq<Target>, n: nat)
    requires n < |targets| && PickedAt(targets, at, picked, n)
    ensures PickedAt(targets, at, picked, n + 1) && PickedAt(targets, at + [n], picked + [targets[n]], n + 1)
  {
  }

  lemma {:induction false} PassingStandsAt(offer: Offer, norm: string -> string, targets: seq<Target>, n: nat)
    requires n <= |targets|
    ensures PickedAt(targets, PassingAt(offer, norm, targets, n), Passing(offer, norm, targets, n), n)
  {
    if n > 0 {
      PassingStandsAt(offer, norm, targets, n - 1);
      var at, passing := PassingAt(offer, norm, targets, n - 1), Passing(offer, norm, targets, n - 1);
      PickedAtNext(targets, at, passing, n - 1);
      assert at + [] == at && passing + [] == passing;
    }
  }

  lemma {:induction false} PassingAtPasses(offer: Offer, norm: string -> string, targets: seq<Target>, n: nat, i: nat)
    requires n <= |targets|
    ensures i in PassingAt(offer, norm, targets, n) <==> i < n && Passes(offer, norm, targets, i)
  {
    if n > 0 {
      PassingAtPasses(offer, norm, targets, n - 1, i);
    }
  }

  /** Which positions pass, by the raw fields. */
  lemma PassingAtMeans(offer: Offer, norm: string -> string, targets: seq<Target>, i: nat)
    requires i < |targets|
    ensures i in PassingAt(offer, norm, targets, |targets|) <==>
      if offer.ids.None? || |offer.ids.value| != |offer.items| then
        |set j | 0 <= j < i && norm(targets[j].text) == norm(targets[i].text)| <
        |set k | 0 <= k < |offer.items| && norm(offer.items[k]) == norm(targets[i].text)|
      else if targets[i].itemId.Some? && targets[i].itemId.value != "" then targets[i].itemId in offer.ids.value
      else
        var plain := (id: Option<string>) => id.None? || id.value == "";
        |set j | 0 <= j < i && plain(targets[j].itemId) && norm(targets[j].text) == norm(targets[i].text)| <
        |set k | 0 <= k < |offer.items| && plain(offer.ids.value[k]) && norm(offer.items[k]) == norm(targets[i].text)|
  {
    PassingAtPasses(offer, norm, targets, |targets|, i);
    if offer.ids.None? || |offer.ids.value| != |offer.items| {
      PassesByWording(offer, norm, targets, i);
    } else {
      PassesByIdOrWording(offer, norm, targets, i);
    }
  }

  lemma AllPassingAtMean(offer: Offer, norm: string -> string, targets: seq<Target>)
    ensures forall i: nat :: i < |targets| ==>
      (i in PassingAt(offer, norm, targets, |targets|) <==>
       var items, ids := offer.items, offer.ids;
       if ids.None? || |ids.value| != |items| then
         |set j | 0 <= j < i && norm(targets[j].text) == norm(targets[i].text)| <
         |set k | 0 <= k < |items| && norm(items[k]) == norm(targets[i].text)|
       else if targets[i].itemId.Some? && targets[i].itemId.value != "" then targets[i].itemId in ids.value
       else
         var plain := (id: Option<string>) => id.None? || id.value == "";
         |set j | 0 <= j < i && plain(targets[j].itemId) && norm(targets[j].text) == norm(targets[i].text)| <
         |set k | 0 <= k < |items| && plain(ids.value[k]) && norm(items[k]) == norm(targets[i].text)|)
  {
    forall i: nat | i < |targets|
    {
      PassingAtMeans(offer, norm, targets, i);
    }
  }

  /** `allTargets.filter(...)` with the budget map spent as it goes; no offer leaves the targets as they are. */
  method ScopeTargets(offer: Option<Offer>, norm: string -> string, targets: seq<Target>)
    returns (scoped: seq<Target>, ghost at: seq<nat>)
    ensures offer.None? ==> scoped == targets
    ensures offer.Some? ==> scoped == Passing(offer.value, norm, targets, |targets|)
    // the targets at these positions pass, in their order
    ensures offer.Some? ==>
      |at| == |scoped| && (forall k :: 0 <= k < |at| ==> at[k] < |targets| && scoped[k] == targets[at[k]]) &&
      forall j, k :: 0 <= j < k < |at| ==> at[j] < at[k]
    // unless every item has its id, the earliest of each wording, as many as offered; otherwise an issued target by its
    // own id, and of the others the earliest of each wording, as many as offered without an id
    ensures offer.Some? ==> forall i: nat :: i < |targets| ==>
      (i in at <==>
       var items, ids := offer.value.items, offer.value.ids;
       if ids.None? || |ids.value| != |items| then
         |set j | 0 <= j < i && norm(targets[j].text) == norm(targets[i].text)| <
         |set k | 0 <= k < |items| && norm(items[k]) == norm(targets[i].text)|
       else if targets[i].itemId.Some? && targets[i].itemId.value != "" then targets[i].itemId in ids.value
       else
         var plain := (id: Option<string>) => id.None? || id.value == "";
         |set j | 0 <= j < i && plain(targets[j].itemId) && norm(targets[j].text) == norm(targets[i].text)| <
         |set k | 0 <= k < |items| && plain(ids.value[k]) && norm(items[k]) == norm(targets[i].text)|)
  {
    at := [];
    if offer.None? {
      return targets, at;
    }
    var o := offer.value;
    var ids, budget := ReadOffer(o, norm);
    scoped := [];
    for n := 0 to |targets|
      invariant scoped == Passing(o, norm, targets, n)
      invariant BudgetFits(o, norm, targets, n, budget)
    {
      var target := targets[n];
      if ById(o, target) {
        BudgetKept(o, norm, targets, n, budget);
        if target.itemId.value in ids {
          scoped := scoped + [target];
        }
      } else {
        BudgetSpent(o, norm, targets, n, budget);
        var key := norm(target.text);
        var left := Left(budget, key);
        if left > 0 {
          budget := budget[key := left - 1];
          scoped := scoped + [target];
        }
      }
    }
    at := PassingAt(o, norm, targets, |targets|);
    PassingStandsAt(o, norm, targets, |targets|);
    AllPassingAtMean(o, norm, targets);
  }

  /** The passing targets matched by one wording. */
  ghost function WithWording(offer: Offer, norm: string -> string, key: string, ts: seq<Target>): seq<Target>
  {
    if ts == [] then []
    else WithWording(offer, norm, key, ts[..|ts| - 1]) +
         (if !ById(offer, ts[|ts| - 1]) && norm(ts[|ts| - 1].text) == key then [ts[|ts| - 1]] else [])
  }

  lemma WithWordingNext(offer: Offer, norm: string -> string, key: string, ts: seq<Target>, t: Target)
    ensures
      var was := WithWording(offer, norm, key, ts);
      WithWording(offer, norm, key, ts + [t]) == if !ById(offer, t) && norm(t.text) == key then was + [t] else was
  {
    assert (ts + [t])[..|ts + [t]| - 1] == ts;
  }

  lemma FirstOfNext(all: seq<Target>, t: Target, quota: nat)
    ensures
      var taken := all[..Min(quota, |all|)];
      (all + [t])[..Min(quota, |all| + 1)] == if |all| < quota then taken + [t] else taken
  {
  }

  lemma PassingNext(offer: Offer, norm: string -> string, targets: seq<Target>, m: nat)
    requires m < |targets|
    ensures
      var was := Passing(offer, norm, targets, m);
      Passing(offer, norm, targets, m + 1) == if Passes(offer, norm, targets, m) then was + [targets[m]] else was
  {
    var was := Passing(offer, norm, targets, m);
    assert was + [] == was;
  }

  /** For each wording exactly the earliest `min(offered, present)` of its targets pass, whatever ids do. */
  lemma {:induction false} EarliestOfEachWordingPass(offer: Offer,
                                                     norm: string -> string, targets: seq<Target>, key: string, n: nat)
    requires n <= |targets|
    ensures
      var all := WithWording(offer, norm, key, targets[..n]);
      var quota := TimesOffered(offer, norm, key, |offer.items|);
      |all| == TimesPresent(offer, norm, targets, key, n) &&
      WithWording(offer, norm, key, Passing(offer, norm, targets, n)) == all[..Min(quota, |all|)]
  {
    if n > 0 {
      var m := n - 1;
      var t := targets[m];
      EarliestOfEachWordingPass(offer, norm, targets, key, m);
      PassingNext(offer, norm, targets, m);
      assert targets[..n] == targets[..m] + [t];
      WithWordingNext(offer, norm, key, targets[..m], t);
      WithWordingNext(offer, norm, key, Passing(offer, norm, targets, m), t);
      FirstOfNext(WithWording(offer, norm, key, targets[..m]), t, TimesOffered(offer, norm, key, |offer.items|));
    }
  }

  /** With aligned ids, an issued item is in the result exactly when it is a target whose own id was offered. */
  lemma {:induction false} IssuedItemsPassById(offer: Offer,
                                               norm: string -> string, targets: seq<Target>, target: Target, n: nat)
    requires n <= |targets| && ById(offer, target)
    ensures target in Passing(offer, norm, targets, n) <==>
      target in targets[..n] && IdOffered(offer, target.itemId.value)
  {
    if n > 0 {
      IssuedItemsPassById(offer, norm, targets, target, n - 1);
      assert targets[..n] == targets[..n - 1] + [targets[n - 1]];
    }
  }

  // ---------- the lines a tick changed ----------

  /** One plan line as it was before a tick and as the tick wrote it. */
  datatype Restore = Restore(before: string, after: string)

  function Diff(a: seq<string>, b: seq<string>, n: nat): seq<Restore>
    requires n <= |a| && n <= |b|
  {
    if n == 0 then []
    else Diff(a, b, n - 1) + (if a[n - 1] != b[n - 1] then [Restore(a[n - 1], b[n - 1])] else [])
  }

  /** The changed lines in order, or nothing when the line counts differ; `at` says where they stand. */
  method DiffTickedLines(a: seq<string>, b: seq<string>)
    returns (changed: Option<seq<Restore>>, ghost at: seq<nat>)
    ensures changed == if |a| != |b| then None else Some(Diff(a, b, |a|))
    ensures changed.Some? <==> |a| == |b|
    ensures changed.Some? ==>
      |at| == |changed.value| && (forall j, k :: 0 <= j < k < |at| ==> at[j] < at[k]) &&
      (forall k :: 0 <= k < |at| ==> at[k] < |a| && changed.value[k] == Restore(a[at[k]], b[at[k]])) &&
      forall i: nat :: i in at <==> i < |a| && a[i] != b[i]
  {
    at := [];
    if |a| != |b| {
      return None, at;
    }
    var found := [];
    for index := 0 to |a|
      invariant found == Diff(a, b, index)
      invariant |at| == |found| && forall j, k :: 0 <= j < k < |at| ==> at[j] < at[k]
      invariant forall k :: 0 <= k < |at| ==> at[k] < index && found[k] == Restore(a[at[k]], b[at[k]])
      invariant forall i: nat :: i in at <==> i < index && a[i] != b[i]
    {
      if a[index] != b[index] {
        found := found + [Restore(a[index], b[index])];
        at := at + [index];
      }
    }
    return Some(found), at;
  }

  // ---------- undo ----------

  /** `lines.indexOf(line)`, with the length standing for "not found". */
  function IndexOf(lines: seq<string>, line: string): (i: nat)
    ensures i <= |lines|
    ensures line !in lines[..i]
    ensures i < |lines| ==> lines[i] == line
  {
    if lines == [] || lines[0] == line then 0 else 1 + IndexOf(lines[1..], line)
  }

  function UndoOne(lines: seq<string>, r: Restore): seq<string>
  {
    if r.after in lines then lines[IndexOf(lines, r.after) := r.before] else lines
  }

  function Undone(lines: seq<string>, rs: seq<Restore>): seq<string>
  {
    if rs == [] then lines else UndoOne(Undone(lines, rs[..|rs| - 1]), rs[|rs| - 1])
  }

  /** How many of the recorded lines were still there to put back. */
  function RestoredCount(lines: seq<string>, rs: seq<Restore>): nat
  {
    if rs == [] then 0
    else
      var m := |rs| - 1;
      RestoredCount(lines, rs[..m]) + (if rs[m].after in Undone(lines, rs[..m]) then 1 else 0)
  }

  /** The undo takes the records in their order, and for each puts the old line back where the ticked one stands first;
      a record whose ticked line is gone counts for nothing. */
  lemma UndoneByRecord(lines: seq<string>, rs: seq<Restore>, r: Restore)
    ensures Undone(lines, []) == lines && RestoredCount(lines, []) == 0
    ensures
      var u := Undone(lines, rs);
      r.after !in u ==> Undone(lines, rs + [r]) == u && RestoredCount(lines, rs + [r]) == RestoredCount(lines, rs)
    ensures
      var u := Undone(lines, rs);
      forall i :: 0 <= i < |u| && u[i] == r.after && r.after !in u[..i] ==>
        Undone(lines, rs + [r]) == u[i := r.before] && RestoredCount(lines, rs + [r]) == RestoredCount(lines, rs) + 1
  {
    assert (rs + [r])[..|rs + [r]| - 1] == rs;
    var u := Undone(lines, rs);
    forall i | 0 <= i < |u| && u[i] == r.after && r.after !in u[..i]
      ensures IndexOf(u, r.after) == i
    {
      IndexIs(u, r.after, i);
    }
  }

  /** The first occurrence is at or before any other. */
  lemma {:induction false} FirstOccurrence(lines: seq<string>, line: string, i: nat)
    requires i < |lines| && lines[i] == line
    ensures IndexOf(lines, line) <= i
  {
    if lines[0] != line {
      FirstOccurrence(lines[1..], line, i - 1);
    }
  }

  lemma IndexInside(lines: seq<string>, line: string)
    requires line in lines
    ensures IndexOf(lines, line) < |lines|
  {
    var i :| 0 <= i < |lines| && lines[i] == line;
    FirstOccurrence(lines, line, i);
  }

  lemma IndexIs(lines: seq<string>, line: string, i: nat)
    requires i < |lines| && lines[i] == line && line !in lines[..i]
    ensures IndexOf(lines, line) == i
  {
    FirstOccurrence(lines, line, i);
    assert forall j :: 0 <= j < i ==> lines[..i][j] == lines[j] != line;
  }

  method FindLine(lines: array<string>, line: string) returns (i: nat)
    ensures i == IndexOf(lines[..], line)
  {
    i := 0;
    while i < lines.Length && lines[i] != line
      invariant i <= lines.Length && line !in lines[..i]
    {
      i := i + 1;
    }
    if i < lines.Length {
      IndexIs(lines[..], line, i);
    } else {
      assert forall j :: 0 <= j < i ==> lines[..][j] == lines[..i][j] != line;
    }
  }

  /** The loop of the undo, overwriting the split plan in place. */
  method UndoInPlace(lines: array<string>, restores: seq<Restore>) returns (restored: nat)
    modifies lines
    ensures lines[..] == Undone(old(lines[..]), restores)
    ensures restored == RestoredCount(old(lines[..]), restores)
  {
    restored := 0;
    ghost var was := lines[..];
    for k := 0 to |restores|
      invariant lines[..] == Undone(was, restores[..k])
      invariant restored == RestoredCount(was, restores[..k])
    {
      assert restores[..k + 1][..k] == restores[..k];
      var r := restores[k];
      ghost var now := lines[..];
      var index := FindLine(lines, r.after);
      if index < lines.Length {
        assert r.after in now;
        lines[index] := r.before;
        assert lines[..] == now[index := r.before];
        restored := restored + 1;
      } else {
        assert now[..index] == now;
      }
    }
    assert restores[..|restores|] == restores;
  }

  datatype UndoReport = UndoReport(restored: nat, skipped: nat)

  /** Is there a plan with any text? An empty file reads like a missing one. */
  predicate HasText(plan: Option<seq<string>>) { plan.Some? && plan.value != [] && plan.value != [""] }

  /** The command: nothing to restore, no plan, or a write refused because the plan changed meanwhile
      leave the plan as it is. `plan` is the plan of record, `landed` whether the guarded write lands. */
  method UndoReviewerVerifiedTicks(plan: Option<seq<string>>, restores: seq<Restore>, landed: bool)
    returns (report: UndoReport, plan': Option<seq<string>>)
    ensures report.restored + report.skipped == |restores|
    ensures report.restored > 0 ==>
      plan.Some? && plan' == Some(Undone(plan.value, restores)) &&
      report.restored == RestoredCount(plan.value, restores)
    ensures report.restored == 0 ==> plan' == plan
    ensures plan.Some? && plan.value != [] && plan.value != [""] && landed ==>
      report.restored == RestoredCount(plan.value, restores)
    ensures plan.None? || plan.value == [] || plan.value == [""] || !landed ==> report.restored == 0
  {
    RestoredBounds(if plan.Some? then plan.value else [], restores);
    if restores == [] {
      return UndoReport(0, 0), plan;
    }
    if !HasText(plan) {
      return UndoReport(0, |restores|), plan;
    }
    var lines := new string[|plan.value|](i requires 0 <= i < |plan.value| => plan.value[i]);
    assert lines[..] == plan.value;
    var restored := UndoInPlace(lines, restores);
    if restored > 0 {
      if !landed {
        return UndoReport(0, |restores|), plan;
      }
      return UndoReport(restored, |restores| - restored), Some(lines[..]);
    }
    return UndoReport(0, |restores|), plan;
  }

  lemma {:induction false} RestoredBounds(lines: seq<string>, rs: seq<Restore>)
    ensures RestoredCount(lines, rs) <= |rs| && |Undone(lines, rs)| == |lines|
    ensures RestoredCount(lines, rs) == 0 ==> Undone(lines, rs) == lines
  {
    if rs != [] {
      RestoredBounds(lines, rs[..|rs| - 1]);
    }
  }

  /** On any later text the undo only replaces lines that equal a recorded ticked line. */
  lemma {:induction false} UndoTouchesOnlyTickedLines(lines: seq<string>, rs: seq<Restore>, i: nat)
    requires i < |lines|
    ensures |Undone(lines, rs)| == |lines|
    ensures Undone(lines, rs)[i] == lines[i] ||
      (exists j, k :: 0 <= j <= k < |rs| && rs[j].after == lines[i] && rs[k].before == Undone(lines, rs)[i])
  {
    if rs != [] {
      var m := |rs| - 1;
      UndoTouchesOnlyTickedLines(lines, rs[..m], i);
      var mid := Undone(lines, rs[..m]);
      if mid[i] != lines[i] {
        var j, k :| 0 <= j <= k < m && rs[..m][j].after == lines[i] && rs[..m][k].before == mid[i];
        assert rs[j].after == lines[i] && rs[k].before == mid[i];
        if Undone(lines, rs)[i] != mid[i] {
          assert rs[m].before == Undone(lines, rs)[i];
        }
      } else if Undone(lines, rs)[i] != mid[i] {
        IndexInside(mid, rs[m].after);
        assert rs[m].after == lines[i] && rs[m].before == Undone(lines, rs)[i];
      }
    }
  }

  // ---------- undo after the tick itself ----------

  lemma UpdateMultiset(s: seq<string>, i: nat, v: string)
    requires i < |s|
    ensures multiset(s[i := v]) + multiset{s[i]} == multiset(s) + multiset{v}
  {
  }

  lemma SplitMultiset(s: seq<string>, n: nat)
    requires n < |s|
    ensures multiset(s[..n + 1]) == multiset(s[..n]) + multiset{s[n]}
    ensures multiset(s[n..]) == multiset{s[n]} + multiset(s[n + 1..])
  {
    assert s[..n + 1] == s[..n] + [s[n]];
    assert s[n..] == [s[n]] + s[n + 1..];
  }

  /** After the first `n` lines are dealt with: nothing was skipped, the later lines are still as the tick
      wrote them, and the earlier ones are the original ones in some order. */
  lemma {:induction false} UndoPrefix(a: seq<string>, b: seq<string>, n: nat)
    requires |a| == |b| && n <= |a|
    ensures
      var u := Undone(b, Diff(a, b, n));
      |u| == |b| && u[n..] == b[n..] && multiset(u[..n]) == multiset(a[..n]) &&
      RestoredCount(b, Diff(a, b, n)) == |Diff(a, b, n)|
  {
    if n > 0 {
      var m := n - 1;
      UndoPrefix(a, b, m);
      var rs := Diff(a, b, m);
      var u := Undone(b, rs);
      assert u[m] == u[m..][0] == b[m..][0] == b[m];
      if a[m] == b[m] {
        SplitMultiset(u, m);
        SplitMultiset(a, m);
        assert u[n..] == u[m..][1..] == b[m..][1..] == b[n..];
        assert Diff(a, b, n) == rs;
      } else {
        DiffStep(a, b, m);
        UndoStepPrefix(a, b, u, m);
      }
    }
  }

  lemma UndoStepPrefix(a: seq<string>, b: seq<string>, u: seq<string>, m: nat)
    requires |a| == |b| == |u| && m < |a| && a[m] != b[m]
    requires u[m..] == b[m..] && multiset(u[..m]) == multiset(a[..m])
    ensures
      var v := UndoOne(u, Restore(a[m], b[m]));
      b[m] in u && |v| == |b| && v[m + 1..] == b[m + 1..] && multiset(v[..m + 1]) == multiset(a[..m + 1])
  {
    assert u[m] == u[m..][0] == b[m..][0] == b[m];
    var q := IndexOf(u, b[m]);
    FirstOccurrence(u, b[m], m);
    var v := UndoOne(u, Restore(a[m], b[m]));
    assert v == u[q := a[m]];
    assert v[m + 1..] == u[m..][1..] == b[m..][1..] == b[m + 1..];
    assert v[..m + 1] == u[..m + 1][q := a[m]];
    UpdateMultiset(u[..m + 1], q, a[m]);
    SplitMultiset(u, m);
    SplitMultiset(a, m);
  }

  /** Undo right after the tick puts every changed line back and skips none: the plan has exactly its original lines. */
  lemma UndoConservesLines(a: seq<string>, b: seq<string>)
    requires |a| == |b|
    ensures multiset(Undone(b, Diff(a, b, |a|))) == multiset(a)
    ensures RestoredCount(b, Diff(a, b, |a|)) == |Diff(a, b, |a|)|
  {
    UndoPrefix(a, b, |a|);
    var u := Undone(b, Diff(a, b, |a|));
    assert u[..|a|] == u && a[..|a|] == a;
  }

  /** No original line above a changed one reads like what the tick wrote there. */
  ghost predicate NoEarlierLookalike(a: seq<string>, b: seq<string>, n: nat)
    requires |a| == |b| && n <= |a|
  {
    forall i, j :: 0 <= j < i < n && a[i] != b[i] ==> a[j] != b[i]
  }

  ghost predicate OrderRestored(a: seq<string>, b: seq<string>, n: nat)
    requires |a| == |b| && n <= |a|
  {
    var u := Undone(b, Diff(a, b, n));
    |u| == |b| && u[..n] == a[..n]
  }

  lemma UndoOrderNext(a: seq<string>, b: seq<string>, m: nat)
    requires |a| == |b| && m < |a|
    ensures OrderRestored(a, b, m + 1) <==> OrderRestored(a, b, m) && (a[m] != b[m] ==> b[m] !in a[..m])
  {
    UndoPrefix(a, b, m);
    UndoPrefix(a, b, m + 1);
    var u := Undone(b, Diff(a, b, m));
    assert u[m] == u[m..][0] == b[m..][0] == b[m];
    if a[m] == b[m] {
      assert Diff(a, b, m + 1) == Diff(a, b, m);
      OneMore(u, a, m);
    } else {
      DiffStep(a, b, m);
      UndoOrderStep(a, b, u, m);
    }
  }

  lemma OneMore(u: seq<string>, a: seq<string>, m: nat)
    requires m < |u| == |a| && u[m] == a[m]
    ensures u[..m + 1] == a[..m + 1] <==> u[..m] == a[..m]
  {
    assert u[..m + 1] == u[..m] + [u[m]] && a[..m + 1] == a[..m] + [a[m]];
    assert u[..m + 1][..m] == u[..m] && a[..m + 1][..m] == a[..m];
  }

  lemma {:induction false} UndoOrderPrefix(a: seq<string>, b: seq<string>, n: nat)
    requires |a| == |b| && n <= |a|
    ensures OrderRestored(a, b, n) <==> NoEarlierLookalike(a, b, n)
  {
    if n > 0 {
      UndoOrderPrefix(a, b, n - 1);
      UndoOrderNext(a, b, n - 1);
      LookalikeStep(a, b, n - 1);
    }
  }

  lemma LookalikeStep(a: seq<string>, b: seq<string>, m: nat)
    requires |a| == |b| && m < |a|
    ensures NoEarlierLookalike(a, b, m + 1) <==> NoEarlierLookalike(a, b, m) && (a[m] != b[m] ==> b[m] !in a[..m])
  {
    if NoEarlierLookalike(a, b, m + 1) && a[m] != b[m] {
      assert forall j :: 0 <= j < m ==> a[..m][j] == a[j] != b[m];
    }
    if NoEarlierLookalike(a, b, m) && (a[m] != b[m] ==> b[m] !in a[..m]) {
      forall i, j | 0 <= j < i < m + 1 && a[i] != b[i]
        ensures a[j] != b[i]
      {
        if i == m {
          assert a[..m][j] == a[j];
        }
      }
    }
  }

  lemma DiffStep(a: seq<string>, b: seq<string>, m: nat)
    requires m < |a| && m < |b| && a[m] != b[m]
    ensures
      var rs, rs', r := Diff(a, b, m), Diff(a, b, m + 1), Restore(a[m], b[m]);
      |rs'| == |rs| + 1 && rs'[|rs|] == r && rs'[..|rs|] == rs &&
      Undone(b, rs') == UndoOne(Undone(b, rs), r) &&
      RestoredCount(b, rs') == RestoredCount(b, rs) + (if r.after in Undone(b, rs) then 1 else 0)
  {
    var rs, rs', r := Diff(a, b, m), Diff(a, b, m + 1), Restore(a[m], b[m]);
    assert rs' == rs + [r];
    assert rs'[..|rs'| - 1] == rs;
  }

  lemma UndoOrderStep(a: seq<string>, b: seq<string>, u: seq<string>, m: nat)
    requires |a| == |b| == |u| && m < |a| && a[m] != b[m] && u[m] == b[m]
    ensures
      var v := UndoOne(u, Restore(a[m], b[m]));
      |v| == |b| && (v[..m + 1] == a[..m + 1] <==> u[..m] == a[..m] && b[m] !in a[..m])
  {
    var v := UndoOne(u, Restore(a[m], b[m]));
    var q := IndexOf(u, b[m]);
    FirstOccurrence(u, b[m], m);
    if q < m {
      assert v[m] == b[m];
      assert v[..m + 1][m] != a[..m + 1][m];
      if u[..m] == a[..m] {
        assert a[..m][q] == b[m];
      }
    } else {
      assert v[..m + 1] == u[..m] + [a[m]];
      assert a[..m + 1] == a[..m] + [a[m]];
      assert v[..m + 1][..m] == u[..m] && a[..m + 1][..m] == a[..m];
    }
  }

  lemma OrderRestoredMeans(a: seq<string>, b: seq<string>)
    requires |a| == |b|
    ensures OrderRestored(a, b, |a|) <==> Undone(b, Diff(a, b, |a|)) == a
  {
    var u := Undone(b, Diff(a, b, |a|));
    assert |u| == |a| ==> u[..|a|] == u;
    assert a[..|a|] == a;
  }

  /** Undo right after the tick restores the original order exactly when no earlier original line is a lookalike. */
  lemma UndoRestoresExactlyWhen(a: seq<string>, b: seq<string>)
    requires |a| == |b|
    ensures Undone(b, Diff(a, b, |a|)) == a <==> NoEarlierLookalike(a, b, |a|)
  {
    UndoOrderPrefix(a, b, |a|);
    OrderRestoredMeans(a, b);
  }

  /** In particular when every changed line is unique in the ticked text and is no old line of another change. */
  lemma UniqueTicksUndoInPlace(a: seq<string>, b: seq<string>)
    requires |a| == |b|
    requires forall i, j :: 0 <= i < |b| && 0 <= j < |b| && i != j && a[i] != b[i] ==> b[j] != b[i]
    requires forall i, j :: 0 <= i < |b| && 0 <= j < |b| && a[i] != b[i] && a[j] != b[j] ==> a[j] != b[i]
    ensures Undone(b, Diff(a, b, |a|)) == a
  {
    forall i, j | 0 <= j < i < |a| && a[i] != b[i]
      ensures a[j] != b[i]
    {
      assert a[j] != b[j] || b[j] != b[i];
    }
    UndoRestoresExactlyWhen(a, b);
  }

  // ---------- the same on the plan's text ----------

  /** `text.split("\n")`: always at least one line. */
  function Split(t: string): (ls: seq<string>)
    ensures |ls| >= 1
    ensures forall l :: l in ls ==> '\n' !in l
  {
    if t == "" then [""]
    else
      var rest := Split(t[1..]);
      if t[0] == '\n' then [""] + rest else [[t[0]] + rest[0]] + rest[1..]
  }

  /** `lines.join("\n")`. */
  function Join(ls: seq<string>): string
    requires |ls| >= 1
  {
    if |ls| == 1 then ls[0] else ls[0] + "\n" + Join(ls[1..])
  }

  lemma {:induction false} JoinSplit(t: string)
    ensures Join(Split(t)) == t
  {
    if t != "" {
      JoinSplit(t[1..]);
      var rest := Split(t[1..]);
      assert t == [t[0]] + t[1..];
      if t[0] == '\n' {
        assert ([""] + rest)[1..] == rest;
      } else if |rest| > 1 {
        assert Split(t)[1..] == rest[1..];
      }
    }
  }

  lemma {:induction false} SplitPrepend(l: string, t: string)
    requires '\n' !in l
    ensures Split(l + t) == [l + Split(t)[0]] + Split(t)[1..]
  {
    if l == "" {
      assert l + t == t && l + Split(t)[0] == Split(t)[0];
    } else {
      SplitPrepend(l[1..], t);
      assert (l + t)[1..] == l[1..] + t;
      assert l + Split(t)[0] == [l[0]] + (l[1..] + Split(t)[0]);
    }
  }

  lemma {:induction false} SplitJoin(ls: seq<string>)
    requires |ls| >= 1 && forall l :: l in ls ==> '\n' !in l
    ensures Split(Join(ls)) == ls
  {
    if |ls| == 1 {
      SplitPrepend(ls[0], "");
      assert ls[0] + "" == ls[0];
    } else {
      var rest := "\n" + Join(ls[1..]);
      SplitJoin(ls[1..]);
      assert rest[1..] == Join(ls[1..]);
      assert Split(rest) == [""] + ls[1..];
      SplitPrepend(ls[0], rest);
      assert Join(ls) == ls[0] + rest && ls[0] + "" == ls[0];
    }
  }

  lemma {:induction false} UndoneKeepsLinesWhole(lines: seq<string>, rs: seq<Restore>)
    requires forall l :: l in lines ==> '\n' !in l
    requires forall r :: r in rs ==> '\n' !in r.before
    ensures |Undone(lines, rs)| == |lines| && forall l :: l in Undone(lines, rs) ==> '\n' !in l
  {
    if rs != [] {
      UndoneKeepsLinesWhole(lines, rs[..|rs| - 1]);
    }
  }

  lemma {:induction false} DiffTakesLinesOf(a: seq<string>, b: seq<string>, n: nat)
    requires n <= |a| && n <= |b|
    ensures forall r :: r in Diff(a, b, n) ==> r.before in a && r.after in b
  {
    if n > 0 {
      DiffTakesLinesOf(a, b, n - 1);
    }
  }

  /** Tick, then Undo, on texts: the plan text is back exactly when no earlier line is a lookalike. */
  lemma UndoRestoresTextExactlyWhen(before: string, after: string)
    requires |Split(before)| == |Split(after)|
    ensures
      var a, b := Split(before), Split(after);
      var u := Undone(b, Diff(a, b, |a|));
      |u| >= 1 && (Join(u) == before <==> NoEarlierLookalike(a, b, |a|))
  {
    var a, b := Split(before), Split(after);
    var rs := Diff(a, b, |a|);
    DiffTakesLinesOf(a, b, |a|);
    UndoneKeepsLinesWhole(b, rs);
    var u := Undone(b, rs);
    SplitJoin(u);
    JoinSplit(before);
    UndoRestoresExactlyWhen(a, b);
  }

  /** An item ticked earlier with the same wording is unticked in the place of the later one. */
  lemma LookalikeIsUntickedInstead()
    ensures
      var a, b := ["[x] t", "[ ] t"], ["[x] t", "[x] t"];
      Undone(b, Diff(a, b, 2)) == ["[ ] t", "[x] t"]
  {
    var a, b := ["[x] t", "[ ] t"], ["[x] t", "[x] t"];
    assert a[1][1] == ' ' && b[1][1] == 'x';
    assert Diff(a, b, 1) == [];
    var rs := Diff(a, b, 2);
    assert rs == [Restore("[ ] t", "[x] t")];
    assert rs[..0] == [];
    assert Undone(b, rs[..0]) == b;
    IndexIs(b, "[x] t", 0);
  }
}
