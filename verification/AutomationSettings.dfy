/** The multi-scope settings write of src/commands/chooseAutomationLevelV1.ts: set a list of keys in user
    settings, remove their workspace and folder overrides, and put everything back if a write fails. */
module AutomationSettings {
  import opened Wrappers

  type Key = string
  type Value = string

  datatype Target = Global | Workspace | WorkspaceFolder(uri: string)

  /** One setting at one scope. */
  datatype Entry = Entry(key: Key, target: Target)

  /** What a write does: it lands, or it throws, and then the value may or may not have been stored. */
  datatype WriteResult = Written | Thrown(stored: bool)

  /** A setting value at one scope, as it was before anything was written. */
  datatype Prior = Prior(entry: Entry, value: Option<Value>)

  /** A scope that a failed rollback left different. */
  datatype Drift = Drift(entry: Entry, now: Option<Value>, was: Option<Value>)

  /** A key whose effective value is still not the wanted one, and where. */
  datatype Unapplied = Unapplied(key: Key, folder: Option<string>)

  datatype Report =
    | Applied(removedOverrides: nat, notApplied: seq<Unapplied>)
    | Failed(notRestored: seq<Drift>)

  function Lookup(values: map<Entry, Value>, e: Entry): Option<Value>
  {
    if e in values then Some(values[e]) else None
  }

  /** The value a reader sees: folder over workspace over user over the shipped default. */
  function Effective(values: map<Entry, Value>, defaults: map<Key, Value>, key: Key, folder: Option<string>)
    : Option<Value>
  {
    if folder.Some? && Entry(key, WorkspaceFolder(folder.value)) in values then
      Some(values[Entry(key, WorkspaceFolder(folder.value))])
    else if Entry(key, Workspace) in values then Some(values[Entry(key, Workspace)])
    else if Entry(key, Global) in values then Some(values[Entry(key, Global)])
    else if key in defaults then Some(defaults[key])
    else None
  }

  /** The narrowest scope that is set is the one that is read. */
  lemma NarrowestScopeIsRead(values: map<Entry, Value>, defaults: map<Key, Value>, key: Key, folder: Option<string>)
    ensures
      var user, workspace := Entry(key, Global), Entry(key, Workspace);
      var seen := Effective(values, defaults, key, folder);
      (forall f :: folder == Some(f) && Entry(key, WorkspaceFolder(f)) in values ==>
        seen == Some(values[Entry(key, WorkspaceFolder(f))])) &&
      ((forall f :: folder == Some(f) ==> Entry(key, WorkspaceFolder(f)) !in values) ==>
        (workspace in values ==> seen == Some(values[workspace])) &&
        (workspace !in values && user in values ==> seen == Some(values[user])) &&
        (workspace !in values && user !in values ==>
          seen == if key in defaults then Some(defaults[key]) else None))
  {
    if folder.Some? {
      assert Entry(key, WorkspaceFolder(folder.value)) == Entry(key, WorkspaceFolder(folder.value));
    }
  }

  /** The settings store. `disk(k)` decides the fate of the k-th write. */
  class Configuration {
    var values: map<Entry, Value>
    var writes: nat
    const defaults: map<Key, Value>
    const disk: nat -> WriteResult

    constructor (values: map<Entry, Value>, defaults: map<Key, Value>, disk: nat -> WriteResult)
      ensures this.values == values && this.defaults == defaults && this.disk == disk && writes == 0
    {
      this.values, this.defaults, this.disk, this.writes := values, defaults, disk, 0;
    }

    ghost function Stored(e: Entry, v: Option<Value>): map<Entry, Value>
      reads this
    {
      if v.Some? then values[e := v.value] else values - {e}
    }

    method Update(e: Entry, v: Option<Value>) returns (ok: bool)
      modifies this
      ensures writes == old(writes) + 1
      ensures ok == disk(old(writes)).Written?
      ensures values == if disk(old(writes)) == Thrown(false) then old(values) else old(Stored(e, v))
    {
      var fate := disk(writes);
      writes := writes + 1;
      ok := fate.Written?;
      if ok || fate.stored {
        values := if v.Some? then values[e := v.value] else values - {e};
      }
    }
  }

  // ---------- what the command touches ----------

  /** The entries of one key: user, workspace, then each open folder. */
  function EntriesOf(key: Key, folders: seq<string>): (es: seq<Entry>)
    ensures forall e :: e in es <==> e.key == key && (e.target.WorkspaceFolder? ==> e.target.uri in folders)
  {
    var inFolders := seq(|folders|, i requires 0 <= i < |folders| => Entry(key, WorkspaceFolder(folders[i])));
    var es := [Entry(key, Global), Entry(key, Workspace)] + inFolders;
    assert forall e :: e in inFolders <==> e.key == key && e.target.WorkspaceFolder? && e.target.uri in folders by {
      forall e: Entry | e.key == key && e.target.WorkspaceFolder? && e.target.uri in folders
        ensures e in inFolders
      {
        var i :| 0 <= i < |folders| && folders[i] == e.target.uri;
        assert inFolders[i] == e;
      }
    }
    es
  }

  predicate Names(wanted: seq<(Key, Value)>, key: Key) { exists i :: 0 <= i < |wanted| && wanted[i].0 == key }

  predicate Touched(wanted: seq<(Key, Value)>, folders: seq<string>, e: Entry)
  {
    Names(wanted, e.key) && (e.target.WorkspaceFolder? ==> e.target.uri in folders)
  }

  /** The value a key ends up with: the last one listed for it. */
  function LastFor(wanted: seq<(Key, Value)>, key: Key): (v: Option<Value>)
    ensures v.Some? <==> Names(wanted, key)
  {
    if wanted == [] then None
    else
      var m := |wanted| - 1;
      assert forall i :: 0 <= i < m ==> wanted[..m][i] == wanted[i];
      if wanted[m].0 == key then Some(wanted[m].1) else LastFor(wanted[..m], key)
  }

  /** No key is listed with two different values (true of both shipped levels). */
  predicate Consistent(wanted: seq<(Key, Value)>)
  {
    forall i, j :: 0 <= i < |wanted| && 0 <= j < |wanted| && wanted[i].0 == wanted[j].0 ==> wanted[i].1 == wanted[j].1
  }

  /** The set overrides of one key in the workspace and the given folders. */
  ghost function OverridesOf(values: map<Entry, Value>, key: Key, folders: seq<string>): set<Entry>
  {
    set e | e in values && e.key == key && !e.target.Global? && (e.target.WorkspaceFolder? ==> e.target.uri in folders)
  }

  ghost function Overrides(values: map<Entry, Value>, wanted: seq<(Key, Value)>, folders: seq<string>): set<Entry>
  {
    set e | e in values && Touched(wanted, folders, e) && !e.target.Global?
  }

  ghost function AfterKey(values: map<Entry, Value>, key: Key, value: Value, folders: seq<string>): map<Entry, Value>
  {
    (values - OverridesOf(values, key, folders))[Entry(key, Global) := value]
  }

  /** The settings after the keys were written one after the other without failure. */
  ghost function AfterKeys(values: map<Entry, Value>, wanted: seq<(Key, Value)>, folders: seq<string>)
    : map<Entry, Value>
  {
    if wanted == [] then values
    else
      var m := |wanted| - 1;
      AfterKey(AfterKeys(values, wanted[..m], folders), wanted[m].0, wanted[m].1, folders)
  }

  // ---------- the writes a pass makes ----------

  /** A write stores a value at one scope, or removes it. */
  function Put(values: map<Entry, Value>, w: Prior): map<Entry, Value>
  {
    if w.value.Some? then values[w.entry := w.value.value] else values - {w.entry}
  }

  function Performed(values: map<Entry, Value>, ws: seq<Prior>): map<Entry, Value>
  {
    if ws == [] then values else Put(Performed(values, ws[..|ws| - 1]), ws[|ws| - 1])
  }

  function RemovalOf(values: map<Entry, Value>, e: Entry): seq<Prior>
  {
    if e in values then [Prior(e, None)] else []
  }

  /** The overrides of one key that are set: the workspace's, then those of the folders, each folder once. */
  function Removals(values: map<Entry, Value>, key: Key, folders: seq<string>): seq<Prior>
  {
    if folders == [] then RemovalOf(values, Entry(key, Workspace))
    else
      var m := |folders| - 1;
      Removals(values, key, folders[..m]) +
      (if folders[m] in folders[..m] then [] else RemovalOf(values, Entry(key, WorkspaceFolder(folders[m]))))
  }

  function KeyWrites(values: map<Entry, Value>, key: Key, value: Value, folders: seq<string>): seq<Prior>
  {
    Removals(values, key, folders) + [Prior(Entry(key, Global), Some(value))]
  }

  /** All writes of a pass in which none fails. */
  ghost function Writes(values: map<Entry, Value>, wanted: seq<(Key, Value)>, folders: seq<string>): seq<Prior>
  {
    if wanted == [] then []
    else
      var m := |wanted| - 1;
      var (key, value) := wanted[m];
      Writes(values, wanted[..m], folders) + KeyWrites(AfterKeys(values, wanted[..m], folders), key, value, folders)
  }

  function FolderRemovals(key: Key, folders: seq<string>, at: seq<nat>): (ws: seq<Prior>)
    requires forall k :: 0 <= k < |at| ==> at[k] < |folders|
    ensures |ws| == |at|
    ensures forall k :: 0 <= k < |at| ==> ws[k] == Prior(Entry(key, WorkspaceFolder(folders[at[k]])), None)
  {
    seq(|at|, k requires 0 <= k < |at| => Prior(Entry(key, WorkspaceFolder(folders[at[k]])), None))
  }

  /** Of the first `n` folders these are the ones with an override, each folder once. */
  ghost predicate Overriding(values: map<Entry, Value>, key: Key, folders: seq<string>, n: nat, at: seq<nat>)
    requires n <= |folders|
  {
    (forall j, k :: 0 <= j < k < |at| ==> at[j] < at[k]) &&
    forall i: nat ::
      i in at <==> i < n && folders[i] !in folders[..i] && Entry(key, WorkspaceFolder(folders[i])) in values
  }

  lemma OverridingNext(values: map<Entry, Value>, key: Key, folders: seq<string>, m: nat, at: seq<nat>)
    requires m < |folders| && Overriding(values, key, folders, m, at) && forall k :: 0 <= k < |at| ==> at[k] < m
    ensures
      var own := folders[m] !in folders[..m] && Entry(key, WorkspaceFolder(folders[m])) in values;
      Overriding(values, key, folders, m + 1, if own then at + [m] else at)
  {
  }

  lemma FolderRemovalsNext(key: Key, folders: seq<string>, at: seq<nat>, m: nat)
    requires (forall k :: 0 <= k < |at| ==> at[k] < m) && m < |folders|
    ensures FolderRemovals(key, folders, at + [m]) ==
      FolderRemovals(key, folders, at) + [Prior(Entry(key, WorkspaceFolder(folders[m])), None)]
  {
  }

  lemma RemovalsNext(values: map<Entry, Value>, key: Key, folders: seq<string>, m: nat)
    requires m < |folders|
    ensures Removals(values, key, folders[..m + 1]) ==
      Removals(values, key, folders[..m]) +
      (if folders[m] in folders[..m] then [] else RemovalOf(values, Entry(key, WorkspaceFolder(folders[m]))))
  {
    assert folders[..m + 1][..m] == folders[..m];
  }

  lemma {:induction false} RemovalsInOrder(values: map<Entry, Value>, key: Key, folders: seq<string>, n: nat)
    returns (at: seq<nat>)
    requires n <= |folders|
    ensures Overriding(values, key, folders, n, at) && forall k :: 0 <= k < |at| ==> at[k] < n
    ensures Removals(values, key, folders[..n]) ==
      RemovalOf(values, Entry(key, Workspace)) + FolderRemovals(key, folders, at)
  {
    if n == 0 {
      at := [];
    } else {
      var m := n - 1;
      var before := RemovalsInOrder(values, key, folders, m);
      OverridingNext(values, key, folders, m, before);
      RemovalsNext(values, key, folders, m);
      var own := folders[m] !in folders[..m] && Entry(key, WorkspaceFolder(folders[m])) in values;
      at := if own then before + [m] else before;
      if own {
        FolderRemovalsNext(key, folders, before, m);
        Joined(RemovalOf(values, Entry(key, Workspace)), FolderRemovals(key, folders, before),
               RemovalOf(values, Entry(key, WorkspaceFolder(folders[m]))));
      }
    }
  }

  /** The writes of a pass, in their order: for each key, as listed, the removal of the workspace's override if there is
      one, of each open folder's, once, in the order of the folders, and then the value in the user's settings. */
  lemma PassInOrder(values: map<Entry, Value>, wanted: seq<(Key, Value)>, key: Key, value: Value, folders: seq<string>)
    returns (at: seq<nat>)
    ensures Writes(values, [], folders) == []
    ensures forall j, k :: 0 <= j < k < |at| ==> at[j] < at[k]
    ensures forall k :: 0 <= k < |at| ==> at[k] < |folders|
    ensures
      var now := AfterKeys(values, wanted, folders);
      forall i: nat :: i in at <==>
        i < |folders| && folders[i] !in folders[..i] && Entry(key, WorkspaceFolder(folders[i])) in now
    ensures
      var now := AfterKeys(values, wanted, folders);
      Writes(values, wanted + [(key, value)], folders) ==
      Writes(values, wanted, folders) +
      ((if Entry(key, Workspace) in now then [Prior(Entry(key, Workspace), None)] else []) +
       seq(|at|, k requires 0 <= k < |at| => Prior(Entry(key, WorkspaceFolder(folders[at[k]])), None)) +
       [Prior(Entry(key, Global), Some(value))])
  {
    var more := wanted + [(key, value)];
    assert more[..|more| - 1] == wanted;
    var now := AfterKeys(values, wanted, folders);
    at := RemovalsInOrder(now, key, folders, |folders|);
    assert folders[..|folders|] == folders;
    assert FolderRemovals(key, folders, at) ==
      seq(|at|, k requires 0 <= k < |at| => Prior(Entry(key, WorkspaceFolder(folders[at[k]])), None));
  }

  /** The pass made these writes: all of them, or those up to the first one that threw, which may have been stored. */
  ghost predicate Ran(c: Configuration, from: nat, to: nat, was: map<Entry, Value>, now: map<Entry, Value>,
                      ws: seq<Prior>, ok: bool)
  {
    if ok then to == from + |ws| && AllWritten(c, from, to) && now == Performed(was, ws)
    else
      from < to <= from + |ws| && AllWritten(c, from, to - 1) && c.disk(to - 1).Thrown? &&
      now == Performed(was, ws[..if c.disk(to - 1).stored then to - from else to - from - 1])
  }

  lemma {:induction false} PerformedJoins(values: map<Entry, Value>, ws: seq<Prior>, more: seq<Prior>)
    ensures Performed(values, ws + more) == Performed(Performed(values, ws), more)
  {
    if more == [] {
      assert ws + more == ws;
    } else {
      var m := |more| - 1;
      PerformedJoins(values, ws, more[..m]);
      assert (ws + more)[..|ws + more| - 1] == ws + more[..m];
    }
  }

  lemma OneWrite(c: Configuration, from: nat, was: map<Entry, Value>, now: map<Entry, Value>, w: Prior, ok: bool)
    requires ok == c.disk(from).Written? && now == if c.disk(from) == Thrown(false) then was else Put(was, w)
    ensures Ran(c, from, from + 1, was, now, [w], ok)
  {
    assert Performed(was, [w]) == Put(Performed(was, []), w);
  }

  /** A pass goes on with further writes after one that went through. */
  lemma RanOn(c: Configuration, from: nat, mid: nat, to: nat, was: map<Entry, Value>, between: map<Entry, Value>,
              now: map<Entry, Value>, ws: seq<Prior>, more: seq<Prior>, ok: bool)
    requires Ran(c, from, mid, was, between, ws, true) && Ran(c, mid, to, between, now, more, ok)
    ensures Ran(c, from, to, was, now, ws + more, ok)
  {
    var n := if ok then |more| else if c.disk(to - 1).stored then to - mid else to - mid - 1;
    PerformedJoins(was, ws, more[..n]);
    assert (ws + more)[..|ws| + n] == ws + more[..n];
    assert ok ==> more[..n] == more;
  }

  /** A pass that stopped makes none of the later writes. */
  lemma RanAll(c: Configuration, from: nat, to: nat, was: map<Entry, Value>, now: map<Entry, Value>, ws: seq<Prior>,
               more: seq<Prior>)
    requires Ran(c, from, to, was, now, ws, false)
    ensures Ran(c, from, to, was, now, ws + more, false)
  {
    var n := if c.disk(to - 1).stored then to - from else to - from - 1;
    assert (ws + more)[..n] == ws[..n];
  }

  ghost predicate AllWritten(c: Configuration, from: nat, to: nat)
  {
    forall k :: from <= k < to ==> c.disk(k).Written?
  }

  ghost predicate AtMostOneThrew(c: Configuration, from: nat, to: nat)
  {
    forall j, k :: from <= j < to && from <= k < to && c.disk(j).Thrown? && c.disk(k).Thrown? ==> j == k
  }

  ghost predicate SameOutside(was: map<Entry, Value>, now: map<Entry, Value>, wanted: seq<(Key, Value)>,
                              folders: seq<string>)
  {
    forall e :: !Touched(wanted, folders, e) ==> Lookup(now, e) == Lookup(was, e)
  }

  // ---------- the snapshot ----------

  /** Everything the command reads before it writes, and writes back after a failure, in this order. */
  function Scopes(wanted: seq<(Key, Value)>, folders: seq<string>): seq<Entry>
  {
    if wanted == [] then []
    else Scopes(wanted[..|wanted| - 1], folders) + EntriesOf(wanted[|wanted| - 1].0, folders)
  }

  function Before(values: map<Entry, Value>, es: seq<Entry>): (prior: seq<Prior>)
    ensures |prior| == |es|
    ensures forall i :: 0 <= i < |es| ==> prior[i] == Prior(es[i], Lookup(values, es[i]))
  {
    seq(|es|, i requires 0 <= i < |es| => Prior(es[i], Lookup(values, es[i])))
  }

  /** The snapshot takes the scopes of each key, as listed: user, workspace, then the open folders in their order. */
  lemma ScopesInOrder(wanted: seq<(Key, Value)>, key: Key, value: Value, folders: seq<string>)
    ensures Scopes([], folders) == []
    ensures Scopes(wanted + [(key, value)], folders) ==
      Scopes(wanted, folders) + ([Entry(key, Global), Entry(key, Workspace)] +
      seq(|folders|, i requires 0 <= i < |folders| => Entry(key, WorkspaceFolder(folders[i]))))
  {
    var more := wanted + [(key, value)];
    assert more[..|more| - 1] == wanted;
  }

  lemma TouchedByPrefix(wanted: seq<(Key, Value)>, folders: seq<string>, i: nat, e: Entry)
    requires i < |wanted|
    ensures Touched(wanted[..i + 1], folders, e) <==>
      Touched(wanted[..i], folders, e) || Touched([wanted[i]], folders, e)
  {
    if Names(wanted[..i + 1], e.key) {
      var k :| 0 <= k < i + 1 && wanted[..i + 1][k].0 == e.key;
      assert k < i ==> wanted[..i][k].0 == e.key;
      assert k == i ==> [wanted[i]][0].0 == e.key;
    }
    if Names(wanted[..i], e.key) {
      var k :| 0 <= k < i && wanted[..i][k].0 == e.key;
      assert wanted[..i + 1][k].0 == e.key;
    }
    if Names([wanted[i]], e.key) {
      assert wanted[..i + 1][i].0 == e.key;
    }
  }

  lemma {:induction false} ScopesAreTouched(wanted: seq<(Key, Value)>, folders: seq<string>, e: Entry)
    ensures e in Scopes(wanted, folders) <==> Touched(wanted, folders, e)
  {
    if wanted != [] {
      var m := |wanted| - 1;
      ScopesAreTouched(wanted[..m], folders, e);
      TouchedByPrefix(wanted, folders, m, e);
      assert wanted[..m + 1] == wanted;
      assert Names([wanted[m]], e.key) <==> e.key == wanted[m].0 by {
        assert [wanted[m]][0].0 == wanted[m].0;
      }
    }
  }

  lemma BeforeNext(values: map<Entry, Value>, es: seq<Entry>, more: seq<Entry>, j: nat)
    requires j < |more|
    ensures Before(values, es + more[..j + 1]) ==
      Before(values, es + more[..j]) + [Prior(more[j], Lookup(values, more[j]))]
  {
    assert es + more[..j + 1] == es + more[..j] + [more[j]];
  }

  /** The snapshot holds exactly the touched scopes. */
  lemma BeforeCovers(values: map<Entry, Value>, wanted: seq<(Key, Value)>, folders: seq<string>)
    ensures
      var prior := Before(values, Scopes(wanted, folders));
      (forall p :: p in prior ==> Touched(wanted, folders, p.entry) && p.value == Lookup(values, p.entry)) &&
      (forall e :: Touched(wanted, folders, e) ==> Prior(e, Lookup(values, e)) in prior)
  {
    var es := Scopes(wanted, folders);
    var prior := Before(values, es);
    forall p | p in prior
      ensures Touched(wanted, folders, p.entry) && p.value == Lookup(values, p.entry)
    {
      var k :| 0 <= k < |prior| && prior[k] == p;
      ScopesAreTouched(wanted, folders, es[k]);
    }
    forall e | Touched(wanted, folders, e)
      ensures Prior(e, Lookup(values, e)) in prior
    {
      ScopesAreTouched(wanted, folders, e);
      var k :| 0 <= k < |es| && es[k] == e;
      assert prior[k] == Prior(e, Lookup(values, e));
    }
  }

  method Snapshot(c: Configuration, wanted: seq<(Key, Value)>, folders: seq<string>) returns (prior: seq<Prior>)
    ensures prior == Before(c.values, Scopes(wanted, folders))
    ensures forall p :: p in prior ==> Touched(wanted, folders, p.entry) && p.value == Lookup(c.values, p.entry)
    ensures forall e :: Touched(wanted, folders, e) ==> Prior(e, Lookup(c.values, e)) in prior
  {
    prior := [];
    for i := 0 to |wanted|
      invariant prior == Before(c.values, Scopes(wanted[..i], folders))
    {
      var entries := EntriesOf(wanted[i].0, folders);
      assert Scopes(wanted[..i], folders) + entries[..0] == Scopes(wanted[..i], folders);
      for j := 0 to |entries|
        invariant prior == Before(c.values, Scopes(wanted[..i], folders) + entries[..j])
      {
        BeforeNext(c.values, Scopes(wanted[..i], folders), entries, j);
        prior := prior + [Prior(entries[j], Lookup(c.values, entries[j]))];
      }
      assert entries[..|entries|] == entries;
      assert wanted[..i + 1][..i] == wanted[..i];
    }
    assert wanted[..|wanted|] == wanted;
    BeforeCovers(c.values, wanted, folders);
  }

  // ---------- the forward writes ----------

  /** Remove one override if it is set. */
  method RemoveOverride(c: Configuration, e: Entry) returns (ok: bool, removed: nat)
    modifies c
    ensures ok <==> AllWritten(c, old(c.writes), c.writes)
    ensures Ran(c, old(c.writes), c.writes, old(c.values), c.values, RemovalOf(old(c.values), e), ok)
    ensures ok ==> c.values == old(c.values) - {e} && removed == (if e in old(c.values) then 1 else 0)
    ensures forall x :: x != e ==> Lookup(c.values, x) == Lookup(old(c.values), x)
    ensures c.writes >= old(c.writes)
  {
    removed := 0;
    ok := true;
    if e in c.values {
      ok := c.Update(e, None);
      assert !ok ==> c.disk(old(c.writes)).Thrown?;
      OneWrite(c, old(c.writes), old(c.values), c.values, Prior(e, None), ok);
      if ok {
        removed := 1;
      }
    } else {
      assert c.values == c.values - {e};
    }
  }

  /** The overrides in the workspace and the first `m` folders are gone, and were counted. */
  ghost predicate RemovedSoFar(was: map<Entry, Value>, now: map<Entry, Value>, key: Key, folders: seq<string>, m: nat,
                               removed: nat)
  {
    m <= |folders| &&
    now == was - OverridesOf(was, key, folders[..m]) &&
    removed == |OverridesOf(was, key, folders[..m])|
  }

  /** Nothing but overrides of this key changed. */
  ghost predicate OnlyOverridesChanged(was: map<Entry, Value>, now: map<Entry, Value>, key: Key, folders: seq<string>)
  {
    forall e: Entry :: e.key != key || e.target.Global? || (e.target.WorkspaceFolder? && e.target.uri !in folders) ==>
      Lookup(now, e) == Lookup(was, e)
  }

  lemma FirstRemoved(was: map<Entry, Value>, key: Key, folders: seq<string>)
    ensures
      var e := Entry(key, Workspace);
      RemovedSoFar(was, was - {e}, key, folders, 0, if e in was then 1 else 0)
  {
    var e := Entry(key, Workspace);
    assert OverridesOf(was, key, folders[..0]) == if e in was then {e} else {};
  }

  lemma OverridesGrow(was: map<Entry, Value>, key: Key, folders: seq<string>, m: nat)
    requires m < |folders|
    ensures
      var e := Entry(key, WorkspaceFolder(folders[m]));
      OverridesOf(was, key, folders[..m + 1]) == OverridesOf(was, key, folders[..m]) + (if e in was then {e} else {})
  {
    assert folders[..m + 1] == folders[..m] + [folders[m]];
  }

  lemma NextRemoved(was: map<Entry, Value>, now: map<Entry, Value>, key: Key, folders: seq<string>, m: nat,
                    removed: nat)
    requires m < |folders| && RemovedSoFar(was, now, key, folders, m, removed)
    ensures
      var e := Entry(key, WorkspaceFolder(folders[m]));
      RemovedSoFar(was, now - {e}, key, folders, m + 1, removed + (if e in now then 1 else 0))
  {
    OverridesGrow(was, key, folders, m);
    var e := Entry(key, WorkspaceFolder(folders[m]));
    var before, after := OverridesOf(was, key, folders[..m]), OverridesOf(was, key, folders[..m + 1]);
    if e in was && e !in before {
      assert after == before + {e} && e in now;
      assert was - after == now - {e};
    } else {
      assert after == before && e !in now;
      assert now - {e} == now;
    }
  }

  lemma {:induction false} RemovalsPrefix(was: map<Entry, Value>, key: Key, folders: seq<string>, m: nat)
    returns (rest: seq<Prior>)
    requires m <= |folders|
    ensures Removals(was, key, folders) == Removals(was, key, folders[..m]) + rest
  {
    if m == |folders| {
      assert folders[..m] == folders;
      rest := [];
    } else {
      var front := folders[..|folders| - 1];
      assert front[..m] == folders[..m];
      var before := RemovalsPrefix(was, key, front, m);
      var last := folders[|folders| - 1];
      rest := before +
        (if last in front then [] else RemovalOf(was, Entry(key, WorkspaceFolder(last))));
    }
  }

  /** A removal that failed at folder `m - 1` ends the pass over all of them. */
  lemma StoppedRemovals(c: Configuration, from: nat, to: nat, was: map<Entry, Value>, now: map<Entry, Value>, key: Key,
                        folders: seq<string>, m: nat)
    requires m <= |folders| && Ran(c, from, to, was, now, Removals(was, key, folders[..m]), false)
    ensures Ran(c, from, to, was, now, Removals(was, key, folders), false)
  {
    var rest := RemovalsPrefix(was, key, folders, m);
    RanAll(c, from, to, was, now, Removals(was, key, folders[..m]), rest);
  }

  /** What folder `m` adds to the removals, read off the settings as the earlier ones left them. */
  lemma NextRemoval(was: map<Entry, Value>, now: map<Entry, Value>, key: Key, folders: seq<string>, m: nat,
                    removed: nat)
    requires m < |folders| && RemovedSoFar(was, now, key, folders, m, removed)
    ensures Removals(was, key, folders[..m + 1]) ==
      Removals(was, key, folders[..m]) + RemovalOf(now, Entry(key, WorkspaceFolder(folders[m])))
  {
    assert folders[..m + 1][..m] == folders[..m];
  }

  /** Folder `m` is next: the pass goes on with it, or ends there. */
  lemma RemovalsGoOn(c: Configuration, from: nat, mid: nat, to: nat, was: map<Entry, Value>, between: map<Entry, Value>,
                     now: map<Entry, Value>, key: Key, folders: seq<string>, m: nat, removed: nat, ok: bool)
    requires m < |folders| && RemovedSoFar(was, between, key, folders, m, removed)
    requires Ran(c, from, mid, was, between, Removals(was, key, folders[..m]), true)
    requires Ran(c, mid, to, between, now, RemovalOf(between, Entry(key, WorkspaceFolder(folders[m]))), ok)
    ensures Ran(c, from, to, was, now, Removals(was, key, if ok then folders[..m + 1] else folders), ok)
  {
    NextRemoval(was, between, key, folders, m, removed);
    RanOn(c, from, mid, to, was, between, now, Removals(was, key, folders[..m]),
          RemovalOf(between, Entry(key, WorkspaceFolder(folders[m]))), ok);
    if !ok {
      StoppedRemovals(c, from, to, was, now, key, folders, m + 1);
    }
  }

  /** The workspace override and every folder override of one key. */
  method RemoveOverrides(c: Configuration, key: Key, folders: seq<string>) returns (ok: bool, removed: nat)
    modifies c
    ensures ok <==> AllWritten(c, old(c.writes), c.writes)
    ensures c.writes >= old(c.writes)
    ensures ok ==> c.values == old(c.values) - OverridesOf(old(c.values), key, folders)
    ensures ok ==> removed == |OverridesOf(old(c.values), key, folders)|
    ensures OnlyOverridesChanged(old(c.values), c.values, key, folders)
    ensures Ran(c, old(c.writes), c.writes, old(c.values), c.values, Removals(old(c.values), key, folders), ok)
  {
    ghost var was, start := c.values, c.writes;
    ok, removed := RemoveOverride(c, Entry(key, Workspace));
    if !ok {
      StoppedRemovals(c, start, c.writes, was, c.values, key, folders, 0);
      return;
    }
    FirstRemoved(was, key, folders);
    for m := 0 to |folders|
      invariant RemovedSoFar(was, c.values, key, folders, m, removed)
      invariant OnlyOverridesChanged(was, c.values, key, folders)
      invariant Ran(c, start, c.writes, was, c.values, Removals(was, key, folders[..m]), true)
    {
      NextRemoved(was, c.values, key, folders, m, removed);
      ghost var mid, between := c.writes, c.values;
      var stepOk, n := RemoveOverride(c, Entry(key, WorkspaceFolder(folders[m])));
      RemovalsGoOn(c, start, mid, c.writes, was, between, c.values, key, folders, m, removed, stepOk);
      if !stepOk {
        return false, removed;
      }
      removed := removed + n;
    }
    assert folders[..|folders|] == folders;
  }

  /** One key: its overrides go, then the user value is written. */
  method WriteKey(c: Configuration, key: Key, value: Value, folders: seq<string>) returns (ok: bool, removed: nat)
    modifies c
    ensures ok <==> AllWritten(c, old(c.writes), c.writes)
    ensures c.writes >= old(c.writes)
    ensures ok ==> c.values == AfterKey(old(c.values), key, value, folders)
    ensures ok ==> removed == |OverridesOf(old(c.values), key, folders)|
    ensures SameOutside(old(c.values), c.values, [(key, value)], folders)
    ensures Ran(c, old(c.writes), c.writes, old(c.values), c.values,
                KeyWrites(old(c.values), key, value, folders), ok)
  {
    assert Names([(key, value)], key) by {
      assert [(key, value)][0].0 == key;
    }
    ghost var was, start := c.values, c.writes;
    ghost var removals, write := Removals(was, key, folders), [Prior(Entry(key, Global), Some(value))];
    ok, removed := RemoveOverrides(c, key, folders);
    if !ok {
      RanAll(c, start, c.writes, was, c.values, removals, write);
      return;
    }
    ghost var last, between := c.writes, c.values;
    ok := c.Update(Entry(key, Global), Some(value));
    assert !ok ==> c.disk(last).Thrown?;
    OneWrite(c, last, between, c.values, write[0], ok);
    RanOn(c, start, last, c.writes, was, between, c.values, removals, write, ok);
  }

  /** What every scope holds after the keys were written. */
  lemma {:induction false} AfterKeysMeans(values: map<Entry, Value>, wanted: seq<(Key, Value)>, folders: seq<string>,
                                          e: Entry)
    ensures Lookup(AfterKeys(values, wanted, folders), e) ==
      if !Touched(wanted, folders, e) then Lookup(values, e)
      else if e.target.Global? then LastFor(wanted, e.key)
      else None
  {
    if wanted != [] {
      var m := |wanted| - 1;
      AfterKeysMeans(values, wanted[..m], folders, e);
      TouchedByPrefix(wanted, folders, m, e);
      assert wanted[..m + 1] == wanted;
      assert Names([wanted[m]], e.key) <==> e.key == wanted[m].0 by {
        assert [wanted[m]][0].0 == wanted[m].0;
      }
    }
  }

  /** Overrides still to remove at key `i` are those no earlier key removed. */
  lemma OverridesSplit(values: map<Entry, Value>, wanted: seq<(Key, Value)>, folders: seq<string>, i: nat)
    requires i < |wanted|
    ensures
      var now := OverridesOf(AfterKeys(values, wanted[..i], folders), wanted[i].0, folders);
      |Overrides(values, wanted[..i + 1], folders)| == |Overrides(values, wanted[..i], folders)| + |now|
  {
    var mid := AfterKeys(values, wanted[..i], folders);
    var now := OverridesOf(mid, wanted[i].0, folders);
    var before := Overrides(values, wanted[..i], folders);
    assert Names([wanted[i]], wanted[i].0) by {
      assert [wanted[i]][0].0 == wanted[i].0;
    }
    forall e
      ensures e in Overrides(values, wanted[..i + 1], folders) <==> e in before || e in now
      ensures !(e in before && e in now)
    {
      AfterKeysMeans(values, wanted[..i], folders, e);
      assert e in mid <==> Lookup(mid, e).Some?;
      assert e in values <==> Lookup(values, e).Some?;
      TouchedByPrefix(wanted, folders, i, e);
    }
    assert Overrides(values, wanted[..i + 1], folders) == before + now;
    assert before !! now;
  }

  lemma LastWrites(was: map<Entry, Value>, wanted: seq<(Key, Value)>, folders: seq<string>) returns (more: seq<Prior>)
    requires wanted != []
    ensures Writes(was, wanted, folders) == Writes(was, wanted[..|wanted| - 1], folders) + more
  {
    var (key, value) := wanted[|wanted| - 1];
    more := KeyWrites(AfterKeys(was, wanted[..|wanted| - 1], folders), key, value, folders);
  }

  lemma {:induction false} WritesPrefix(was: map<Entry, Value>, wanted: seq<(Key, Value)>, folders: seq<string>, m: nat)
    returns (rest: seq<Prior>)
    requires m <= |wanted|
    ensures Writes(was, wanted, folders) == Writes(was, wanted[..m], folders) + rest
  {
    if m == |wanted| {
      assert wanted[..m] == wanted;
      rest := [];
    } else {
      var front := wanted[..|wanted| - 1];
      assert front[..m] == wanted[..m];
      var before := WritesPrefix(was, front, folders, m);
      var more := LastWrites(was, wanted, folders);
      Joined(Writes(was, wanted[..m], folders), before, more);
      rest := before + more;
    }
  }

  /** A key that failed ends the pass over all of them. */
  lemma StoppedWrites(c: Configuration, from: nat, to: nat, was: map<Entry, Value>, now: map<Entry, Value>,
                      wanted: seq<(Key, Value)>, folders: seq<string>, m: nat)
    requires m <= |wanted| && Ran(c, from, to, was, now, Writes(was, wanted[..m], folders), false)
    ensures Ran(c, from, to, was, now, Writes(was, wanted, folders), false)
  {
    var rest := WritesPrefix(was, wanted, folders, m);
    RanAll(c, from, to, was, now, Writes(was, wanted[..m], folders), rest);
  }

  method WriteForward(c: Configuration, wanted: seq<(Key, Value)>, folders: seq<string>)
    returns (ok: bool, removed: nat)
    modifies c
    ensures ok <==> AllWritten(c, old(c.writes), c.writes)
    ensures c.writes >= old(c.writes)
    ensures ok ==> c.values == AfterKeys(old(c.values), wanted, folders)
    ensures ok ==> removed == |Overrides(old(c.values), wanted, folders)|
    ensures SameOutside(old(c.values), c.values, wanted, folders)
    ensures Ran(c, old(c.writes), c.writes, old(c.values), c.values, Writes(old(c.values), wanted, folders), ok)
  {
    ghost var was, start := c.values, c.writes;
    ok, removed := true, 0;
    assert Overrides(was, [], folders) == {};
    for i := 0 to |wanted|
      invariant c.writes >= start && AllWritten(c, start, c.writes)
      invariant c.values == AfterKeys(was, wanted[..i], folders)
      invariant removed == |Overrides(was, wanted[..i], folders)|
      invariant SameOutside(was, c.values, wanted[..i], folders)
      invariant Ran(c, start, c.writes, was, c.values, Writes(was, wanted[..i], folders), true)
    {
      ghost var mid, k := c.values, c.writes;
      ghost var more := KeyWrites(mid, wanted[i].0, wanted[i].1, folders);
      var stepOk, n := WriteKey(c, wanted[i].0, wanted[i].1, folders);
      assert wanted[..i + 1][..i] == wanted[..i];
      RanOn(c, start, k, c.writes, was, mid, c.values, Writes(was, wanted[..i], folders), more, stepOk);
      forall e | !Touched(wanted[..i + 1], folders, e)
        ensures Lookup(c.values, e) == Lookup(was, e)
      {
        TouchedByPrefix(wanted, folders, i, e);
        assert [(wanted[i].0, wanted[i].1)] == [wanted[i]];
      }
      if !stepOk {
        WiderFrame(was, c.values, wanted, i + 1, folders);
        StoppedWrites(c, start, c.writes, was, c.values, wanted, folders, i + 1);
        return false, removed;
      }
      OverridesSplit(was, wanted, folders, i);
      removed := removed + n;
    }
    assert wanted[..|wanted|] == wanted;
  }

  lemma WiderFrame(was: map<Entry, Value>, now: map<Entry, Value>, wanted: seq<(Key, Value)>, n: nat,
                   folders: seq<string>)
    requires n <= |wanted| && SameOutside(was, now, wanted[..n], folders)
    ensures SameOutside(was, now, wanted, folders)
  {
    forall e | !Touched(wanted, folders, e)
      ensures !Touched(wanted[..n], folders, e)
    {
      if Names(wanted[..n], e.key) {
        var k :| 0 <= k < n && wanted[..n][k].0 == e.key;
        assert wanted[k].0 == e.key;
      }
    }
  }

  // ---------- the rollback ----------

  /** Does one of these writes store the value of `e`? */
  ghost predicate Saved(c: Configuration, from: nat, es: seq<Entry>, e: Entry)
  {
    exists k :: 0 <= k < |es| && es[k] == e && c.disk(from + k) != Thrown(false)
  }

  lemma SavedNext(c: Configuration, from: nat, es: seq<Entry>, i: nat, e: Entry)
    requires i < |es|
    ensures Saved(c, from, es[..i + 1], e) <==>
      Saved(c, from, es[..i], e) || (es[i] == e && c.disk(from + i) != Thrown(false))
  {
    if Saved(c, from, es[..i + 1], e) {
      var k :| 0 <= k < i + 1 && es[..i + 1][k] == e && c.disk(from + k) != Thrown(false);
      assert k < i ==> es[..i][k] == e;
    }
    if Saved(c, from, es[..i], e) {
      var k :| 0 <= k < i && es[..i][k] == e && c.disk(from + k) != Thrown(false);
      assert es[..i + 1][k] == e;
    }
    if es[i] == e && c.disk(from + i) != Thrown(false) {
      assert es[..i + 1][i] == e;
    }
  }

  /** What is left when these values were written back, whether or not each write worked. */
  ghost function RolledBack(c: Configuration, from: nat, values: map<Entry, Value>, prior: seq<Prior>)
    : map<Entry, Value>
  {
    if prior == [] then values
    else
      var m := |prior| - 1;
      var before := RolledBack(c, from, values, prior[..m]);
      if c.disk(from + m) == Thrown(false) then before else Put(before, prior[m])
  }

  /** An entry is then as it was in the snapshot exactly where one of its writes was stored. */
  lemma {:induction false} RolledBackMeans(c: Configuration, from: nat, values: map<Entry, Value>,
                                           was: map<Entry, Value>, es: seq<Entry>, e: Entry)
    ensures Lookup(RolledBack(c, from, values, Before(was, es)), e) ==
      if Saved(c, from, es, e) then Lookup(was, e) else Lookup(values, e)
  {
    if es != [] {
      var m := |es| - 1;
      RolledBackMeans(c, from, values, was, es[..m], e);
      SavedNext(c, from, es, m, e);
      assert es[..m + 1] == es;
      assert Before(was, es)[..m] == Before(was, es[..m]);
    }
  }

  /** Write every snapshot entry back, keeping on after a write that throws. */
  method Rollback(c: Configuration, prior: seq<Prior>)
    modifies c
    ensures c.writes == old(c.writes) + |prior|
    ensures c.values == RolledBack(c, old(c.writes), old(c.values), prior)
  {
    ghost var broken, start := c.values, c.writes;
    for i := 0 to |prior|
      invariant c.writes == start + i && c.values == RolledBack(c, start, broken, prior[..i])
    {
      var _ := c.Update(prior[i].entry, prior[i].value);
      assert prior[..i + 1][..i] == prior[..i];
    }
    assert prior[..|prior|] == prior;
  }

  method ReadBack(c: Configuration, prior: seq<Prior>) returns (notRestored: seq<Drift>)
    ensures forall d :: d in notRestored <==>
      Prior(d.entry, d.was) in prior && d.now == Lookup(c.values, d.entry) && d.now != d.was
  {
    notRestored := [];
    for i := 0 to |prior|
      invariant forall d :: d in notRestored <==>
        Prior(d.entry, d.was) in prior[..i] && d.now == Lookup(c.values, d.entry) && d.now != d.was
    {
      assert prior[..i + 1] == prior[..i] + [prior[i]];
      var now := Lookup(c.values, prior[i].entry);
      if now != prior[i].value {
        notRestored := notRestored + [Drift(prior[i].entry, now, prior[i].value)];
      }
    }
    assert prior[..|prior|] == prior;
  }

  // ---------- the command ----------

  /** Where a reader can stand: in each open folder, or nowhere when none is open. */
  predicate Standpoint(folders: seq<string>, scope: Option<string>)
  {
    if folders == [] then scope.None? else scope.Some? && scope.value in folders
  }

  method NotApplied(c: Configuration, wanted: seq<(Key, Value)>, folders: seq<string>) returns (rest: seq<Unapplied>)
    ensures forall u :: u in rest <==>
      (if folders == [] then u.folder.None? else u.folder.Some? && u.folder.value in folders) &&
      exists i :: 0 <= i < |wanted| && wanted[i].0 == u.key &&
        Effective(c.values, c.defaults, u.key, u.folder) != Some(wanted[i].1)
  {
    rest := [];
    var scopes := if folders == [] then [None] else seq(|folders|, i requires 0 <= i < |folders| => Some(folders[i]));
    assert forall scope :: scope in scopes <==> Standpoint(folders, scope) by {
      forall scope: Option<string> | Standpoint(folders, scope)
        ensures scope in scopes
      {
        if folders != [] {
          var i :| 0 <= i < |folders| && folders[i] == scope.value;
          assert scopes[i] == scope;
        }
      }
    }
    for i := 0 to |wanted|
      invariant forall u :: u in rest <==>
        Standpoint(folders, u.folder) &&
        exists k :: 0 <= k < i && wanted[k].0 == u.key &&
          Effective(c.values, c.defaults, u.key, u.folder) != Some(wanted[k].1)
    {
      ghost var before := rest;
      for j := 0 to |scopes|
        invariant forall u :: u in rest <==>
          u in before ||
          (u.folder in scopes[..j] && wanted[i].0 == u.key &&
           Effective(c.values, c.defaults, u.key, u.folder) != Some(wanted[i].1))
      {
        assert scopes[..j + 1] == scopes[..j] + [scopes[j]];
        if Effective(c.values, c.defaults, wanted[i].0, scopes[j]) != Some(wanted[i].1) {
          rest := rest + [Unapplied(wanted[i].0, scopes[j])];
        }
      }
      assert scopes[..|scopes|] == scopes;
    }
  }

  /** How many of the next writes go through before one throws. */
  ghost function Untroubled(c: Configuration, from: nat, limit: nat): (n: nat)
    ensures n <= limit && AllWritten(c, from, from + n) && (n < limit ==> c.disk(from + n).Thrown?)
    decreases limit
  {
    if limit == 0 || c.disk(from).Thrown? then 0 else 1 + Untroubled(c, from + 1, limit - 1)
  }

  lemma SameLookups(was: map<Entry, Value>, now: map<Entry, Value>)
    ensures (forall e :: Lookup(now, e) == Lookup(was, e)) <==> now == was
  {
    if forall e :: Lookup(now, e) == Lookup(was, e) {
      forall e
        ensures e in now <==> e in was
        ensures e in now ==> now[e] == was[e]
      {
        assert Lookup(now, e) == Lookup(was, e);
      }
    }
  }

  /** The settings once write `n` threw, stored or not. */
  ghost function BrokenAt(c: Configuration, from: nat, was: map<Entry, Value>, ws: seq<Prior>, n: nat)
    : map<Entry, Value>
    requires n < |ws| && c.disk(from + n).Thrown?
  {
    Performed(was, ws[..if c.disk(from + n).stored then n + 1 else n])
  }

  /** Each scope that an interrupted pass had changed is stored again by one of the writes that follow. */
  ghost predicate SavesAll(c: Configuration, from: nat, was: map<Entry, Value>, broken: map<Entry, Value>,
                           wanted: seq<(Key, Value)>, folders: seq<string>)
  {
    forall e :: Touched(wanted, folders, e) ==>
      Lookup(broken, e) == Lookup(was, e) || Saved(c, from, Scopes(wanted, folders), e)
  }

  /** A failing command leaves every scope as it was: the settings, the keys and the fate of the writes decide. */
  ghost predicate LeavesNothing(c: Configuration, from: nat, was: map<Entry, Value>, wanted: seq<(Key, Value)>,
                                folders: seq<string>)
  {
    var ws := Writes(was, wanted, folders);
    var n := Untroubled(c, from, |ws|);
    n < |ws| && SavesAll(c, from + n + 1, was, BrokenAt(c, from, was, ws, n), wanted, folders)
  }

  /** The interrupted pass is the one that the fate of the writes determines. */
  lemma StoppedAt(c: Configuration, from: nat, to: nat, was: map<Entry, Value>, now: map<Entry, Value>, ws: seq<Prior>,
                  ok: bool)
    requires Ran(c, from, to, was, now, ws, ok)
    ensures
      var n := Untroubled(c, from, |ws|);
      (ok <==> n == |ws|) &&
      (!ok ==> to == from + n + 1 && now == BrokenAt(c, from, was, ws, n))
  {
    var n := Untroubled(c, from, |ws|);
    assert n < |ws| ==> c.disk(from + n).Thrown?;
    assert !ok ==> c.disk(to - 1).Thrown?;
  }

  lemma StoppedLeavesNothing(c: Configuration, from: nat, was: map<Entry, Value>, broken: map<Entry, Value>,
                             wanted: seq<(Key, Value)>, folders: seq<string>, forward: nat)
    requires Ran(c, from, forward, was, broken, Writes(was, wanted, folders), false)
    ensures LeavesNothing(c, from, was, wanted, folders) <==> SavesAll(c, forward, was, broken, wanted, folders)
  {
    StoppedAt(c, from, forward, was, broken, Writes(was, wanted, folders), false);
  }

  /** The rollback changes nothing else, and puts every scope back exactly when each one is stored again. */
  lemma RestoresExactlyWhen(c: Configuration, from: nat, was: map<Entry, Value>, broken: map<Entry, Value>,
                            wanted: seq<(Key, Value)>, folders: seq<string>)
    requires SameOutside(was, broken, wanted, folders)
    ensures
      var after := RolledBack(c, from, broken, Before(was, Scopes(wanted, folders)));
      SameOutside(was, after, wanted, folders) && (after == was <==> SavesAll(c, from, was, broken, wanted, folders))
  {
    var es := Scopes(wanted, folders);
    var after := RolledBack(c, from, broken, Before(was, es));
    forall e
      ensures Lookup(after, e) == Lookup(was, e) <==> Lookup(broken, e) == Lookup(was, e) || Saved(c, from, es, e)
    {
      RolledBackMeans(c, from, broken, was, es, e);
    }
    SameLookups(was, after);
  }

  lemma AllSaved(c: Configuration, from: nat, es: seq<Entry>, e: Entry)
    requires e in es && AllWritten(c, from, from + |es|)
    ensures Saved(c, from, es, e)
  {
    var k :| 0 <= k < |es| && es[k] == e;
    assert c.disk(from + k).Written?;
  }

  /** A single write that threw leaves nothing behind. */
  lemma OneFailureIsSaved(c: Configuration, from: nat, forward: nat, to: nat, was: map<Entry, Value>,
                          broken: map<Entry, Value>, wanted: seq<(Key, Value)>, folders: seq<string>)
    requires from < forward && c.disk(forward - 1).Thrown? && AtMostOneThrew(c, from, to)
    requires to == forward + |Scopes(wanted, folders)|
    ensures SavesAll(c, forward, was, broken, wanted, folders)
  {
    assert AllWritten(c, forward, to);
    forall e | Touched(wanted, folders, e)
      ensures Saved(c, forward, Scopes(wanted, folders), e)
    {
      ScopesAreTouched(wanted, folders, e);
      AllSaved(c, forward, Scopes(wanted, folders), e);
    }
  }

  /** After a failed pass: put everything back, and report what could not be. */
  method PutBack(c: Configuration, wanted: seq<(Key, Value)>, folders: seq<string>, prior: seq<Prior>,
                 ghost was: map<Entry, Value>, ghost from: nat)
    returns (notRestored: seq<Drift>)
    requires prior == Before(was, Scopes(wanted, folders)) && SameOutside(was, c.values, wanted, folders)
    requires Ran(c, from, c.writes, was, c.values, Writes(was, wanted, folders), false)
    modifies c
    ensures c.writes >= old(c.writes) && SameOutside(was, c.values, wanted, folders)
    ensures forall d :: d in notRestored <==>
      Touched(wanted, folders, d.entry) && d.now == Lookup(c.values, d.entry) &&
      d.was == Lookup(was, d.entry) && d.now != d.was
    ensures notRestored == [] <==> c.values == was
    ensures c.values == was <==> LeavesNothing(c, from, was, wanted, folders)
    ensures AtMostOneThrew(c, from, c.writes) ==> c.values == was
  {
    ghost var forward, broken := c.writes, c.values;
    Rollback(c, prior);
    RestoresExactlyWhen(c, forward, was, broken, wanted, folders);
    StoppedLeavesNothing(c, from, was, broken, wanted, folders, forward);
    if AtMostOneThrew(c, from, c.writes) {
      OneFailureIsSaved(c, from, forward, c.writes, was, broken, wanted, folders);
    }
    BeforeCovers(was, wanted, folders);
    notRestored := ReadBack(c, prior);
    DriftsAreExact(was, c.values, wanted, folders, prior, notRestored);
  }

  /** Write every key, or put everything back. */
  method WriteOrPutBack(c: Configuration, wanted: seq<(Key, Value)>, folders: seq<string>)
    returns (report: Report)
    modifies c
    // no write is ever lost: the command fails exactly when some write threw
    ensures report.Applied? <==> AllWritten(c, old(c.writes), c.writes)
    ensures c.writes >= old(c.writes)
    // other keys, and folders that are not open, never change
    ensures SameOutside(old(c.values), c.values, wanted, folders)
    // success
    ensures report.Applied? ==> c.values == AfterKeys(old(c.values), wanted, folders)
    ensures report.Applied? ==> report.removedOverrides == |Overrides(old(c.values), wanted, folders)|
    ensures report.Applied? ==> forall u :: u in report.notApplied <==>
      (if folders == [] then u.folder.None? else u.folder.Some? && u.folder.value in folders) &&
      exists i :: 0 <= i < |wanted| && wanted[i].0 == u.key &&
        Effective(c.values, c.defaults, u.key, u.folder) != Some(wanted[i].1)
    // failure: exactly the scopes that differ are named, with both values
    ensures report.Failed? ==> forall d :: d in report.notRestored <==>
      Touched(wanted, folders, d.entry) && d.now == Lookup(c.values, d.entry) &&
      d.was == Lookup(old(c.values), d.entry) && d.now != d.was
    ensures report.Failed? ==> (report.notRestored == [] <==> c.values == old(c.values))
    // and the pattern of failed writes decides whether there are any
    ensures report.Failed? ==>
      (c.values == old(c.values) <==> LeavesNothing(c, old(c.writes), old(c.values), wanted, folders))
    // a single failed write never leaves anything behind
    ensures report.Failed? && AtMostOneThrew(c, old(c.writes), c.writes) ==> c.values == old(c.values)
  {
    ghost var was, start := c.values, c.writes;
    var prior := Snapshot(c, wanted, folders);
    var ok, removed := WriteForward(c, wanted, folders);
    if ok {
      var rest := NotApplied(c, wanted, folders);
      return Applied(removed, rest);
    }
    ghost var bad := c.writes - 1;
    var notRestored := PutBack(c, wanted, folders, prior, was, start);
    assert start <= bad < c.writes && c.disk(bad).Thrown?;
    return Failed(notRestored);
  }

  /** Set every key everywhere, or leave every key as it was. */
  method ApplyAutomationSettings(c: Configuration, wanted: seq<(Key, Value)>, folders: seq<string>)
    returns (report: Report)
    modifies c
    // no write is ever lost: the command fails exactly when some write threw
    ensures report.Applied? <==> AllWritten(c, old(c.writes), c.writes)
    ensures c.writes >= old(c.writes)
    // other keys, and folders that are not open, never change
    ensures SameOutside(old(c.values), c.values, wanted, folders)
    // success
    ensures report.Applied? ==> c.values == AfterKeys(old(c.values), wanted, folders)
    ensures report.Applied? ==> report.removedOverrides == |Overrides(old(c.values), wanted, folders)|
    ensures report.Applied? ==> (report.notApplied == [] <==> Consistent(wanted))
    // failure: exactly the scopes that differ are named, with both values
    ensures report.Failed? ==> forall d :: d in report.notRestored <==>
      Touched(wanted, folders, d.entry) && d.now == Lookup(c.values, d.entry) &&
      d.was == Lookup(old(c.values), d.entry) && d.now != d.was
    ensures report.Failed? ==> (report.notRestored == [] <==> c.values == old(c.values))
    // and the pattern of failed writes decides whether there are any
    ensures report.Failed? ==>
      (c.values == old(c.values) <==> LeavesNothing(c, old(c.writes), old(c.values), wanted, folders))
    // a single failed write never leaves anything behind
    ensures report.Failed? && AtMostOneThrew(c, old(c.writes), c.writes) ==> c.values == old(c.values)
    // in the fields: after success every listed key has the value listed last in the user's settings and no other
    // value in the workspace or an open folder, and the overrides that were there are counted
    ensures report.Applied? ==> forall i :: 0 <= i < |wanted| ==>
      var key := wanted[i].0;
      Entry(key, Workspace) !in c.values &&
      (forall f :: f in folders ==> Entry(key, WorkspaceFolder(f)) !in c.values) &&
      ((forall j :: i < j < |wanted| ==> wanted[j].0 != key) ==>
        Entry(key, Global) in c.values && c.values[Entry(key, Global)] == wanted[i].1)
    ensures report.Applied? ==>
      report.removedOverrides ==
      |set e | e in old(c.values) && (exists i :: 0 <= i < |wanted| && wanted[i].0 == e.key) &&
         (e.target.Workspace? || (e.target.WorkspaceFolder? && e.target.uri in folders))|
    // named as not applied are the keys listed with another value before, wherever a reader can stand
    ensures report.Applied? ==> forall u :: u in report.notApplied <==>
      (if folders == [] then u.folder.None? else u.folder.Some? && u.folder.value in folders) &&
      exists i, j :: 0 <= i < |wanted| && 0 <= j < |wanted| && wanted[i].0 == wanted[j].0 == u.key &&
        wanted[i].1 != wanted[j].1 && forall k :: j < k < |wanted| ==> wanted[k].0 != u.key
    // after a failure the scopes that differ are named, and only scopes of a listed key can
    ensures report.Failed? ==> forall d :: d in report.notRestored <==>
      (exists i :: 0 <= i < |wanted| && wanted[i].0 == d.entry.key) &&
      (d.entry.target.WorkspaceFolder? ==> d.entry.target.uri in folders) &&
      d.now == (if d.entry in c.values then Some(c.values[d.entry]) else None) &&
      d.was == (if d.entry in old(c.values) then Some(old(c.values)[d.entry]) else None) && d.now != d.was
    // any other scope stays as it was
    ensures forall e: Entry ::
      (forall i :: 0 <= i < |wanted| ==> wanted[i].0 != e.key) ||
      (e.target.WorkspaceFolder? && e.target.uri !in folders) ==>
        (e in c.values <==> e in old(c.values)) && (e in c.values ==> c.values[e] == old(c.values)[e])
  {
    ghost var was := c.values;
    report := WriteOrPutBack(c, wanted, folders);
    OthersStay(was, c.values, wanted, folders);
    if report.Applied? {
      NothingLeftExactlyWhen(was, c, wanted, folders, report.notApplied);
      ListedAreInForce(was, c.values, wanted, folders);
      OverridesMean(was, wanted, folders);
      NotAppliedMeans(was, c, wanted, folders, report.notApplied);
    } else {
      DriftsMean(was, c.values, wanted, folders, report.notRestored);
    }
  }

  lemma DriftsMean(was: map<Entry, Value>, now: map<Entry, Value>, wanted: seq<(Key, Value)>, folders: seq<string>,
                   drifts: seq<Drift>)
    requires forall d :: d in drifts <==>
      Touched(wanted, folders, d.entry) && d.now == Lookup(now, d.entry) && d.was == Lookup(was, d.entry) &&
      d.now != d.was
    ensures forall d :: d in drifts <==>
      (exists i :: 0 <= i < |wanted| && wanted[i].0 == d.entry.key) &&
      (d.entry.target.WorkspaceFolder? ==> d.entry.target.uri in folders) &&
      d.now == (if d.entry in now then Some(now[d.entry]) else None) &&
      d.was == (if d.entry in was then Some(was[d.entry]) else None) && d.now != d.was
  {
  }

  lemma OthersStay(was: map<Entry, Value>, now: map<Entry, Value>, wanted: seq<(Key, Value)>, folders: seq<string>)
    requires SameOutside(was, now, wanted, folders)
    ensures forall e: Entry ::
      (forall i :: 0 <= i < |wanted| ==> wanted[i].0 != e.key) ||
      (e.target.WorkspaceFolder? && e.target.uri !in folders) ==>
        (e in now <==> e in was) && (e in now ==> now[e] == was[e])
  {
    forall e: Entry |
      (forall i :: 0 <= i < |wanted| ==> wanted[i].0 != e.key) ||
      (e.target.WorkspaceFolder? && e.target.uri !in folders)
      ensures (e in now <==> e in was) && (e in now ==> now[e] == was[e])
    {
      assert !Touched(wanted, folders, e);
      assert Lookup(now, e) == Lookup(was, e);
    }
  }

  lemma {:induction false} LastForIs(wanted: seq<(Key, Value)>, i: nat)
    requires i < |wanted| && forall j :: i < j < |wanted| ==> wanted[j].0 != wanted[i].0
    ensures LastFor(wanted, wanted[i].0) == Some(wanted[i].1)
  {
    if i < |wanted| - 1 {
      LastForIs(wanted[..|wanted| - 1], i);
    }
  }

  lemma {:induction false} LastListed(wanted: seq<(Key, Value)>, key: Key) returns (j: nat)
    requires Names(wanted, key)
    ensures j < |wanted| && wanted[j].0 == key && forall k :: j < k < |wanted| ==> wanted[k].0 != key
  {
    j := |wanted| - 1;
    if wanted[j].0 != key {
      var i :| 0 <= i < |wanted| && wanted[i].0 == key;
      assert wanted[..j][i].0 == key;
      j := LastListed(wanted[..j], key);
    }
  }

  lemma ListedIsInForce(was: map<Entry, Value>, now: map<Entry, Value>, wanted: seq<(Key, Value)>,
                        folders: seq<string>, i: nat)
    requires now == AfterKeys(was, wanted, folders) && i < |wanted|
    ensures
      var key := wanted[i].0;
      Entry(key, Workspace) !in now && (forall f :: f in folders ==> Entry(key, WorkspaceFolder(f)) !in now) &&
      ((forall j :: i < j < |wanted| ==> wanted[j].0 != key) ==>
        Entry(key, Global) in now && now[Entry(key, Global)] == wanted[i].1)
  {
    var key := wanted[i].0;
    AfterKeysMeans(was, wanted, folders, Entry(key, Workspace));
    AfterKeysMeans(was, wanted, folders, Entry(key, Global));
    forall f | f in folders
      ensures Entry(key, WorkspaceFolder(f)) !in now
    {
      AfterKeysMeans(was, wanted, folders, Entry(key, WorkspaceFolder(f)));
    }
    if forall j :: i < j < |wanted| ==> wanted[j].0 != key {
      LastForIs(wanted, i);
    }
  }

  /** What a pass without failures leaves, in the fields. */
  lemma ListedAreInForce(was: map<Entry, Value>, now: map<Entry, Value>, wanted: seq<(Key, Value)>,
                         folders: seq<string>)
    requires now == AfterKeys(was, wanted, folders)
    ensures forall i :: 0 <= i < |wanted| ==>
      var key := wanted[i].0;
      Entry(key, Workspace) !in now && (forall f :: f in folders ==> Entry(key, WorkspaceFolder(f)) !in now) &&
      ((forall j :: i < j < |wanted| ==> wanted[j].0 != key) ==>
        Entry(key, Global) in now && now[Entry(key, Global)] == wanted[i].1)
  {
    forall i: nat | i < |wanted|
      ensures
        var key := wanted[i].0;
        Entry(key, Workspace) !in now && (forall f :: f in folders ==> Entry(key, WorkspaceFolder(f)) !in now) &&
        ((forall j :: i < j < |wanted| ==> wanted[j].0 != key) ==>
          Entry(key, Global) in now && now[Entry(key, Global)] == wanted[i].1)
    {
      ListedIsInForce(was, now, wanted, folders, i);
    }
  }

  lemma OverridesMean(was: map<Entry, Value>, wanted: seq<(Key, Value)>, folders: seq<string>)
    ensures Overrides(was, wanted, folders) ==
      set e | e in was && (exists i :: 0 <= i < |wanted| && wanted[i].0 == e.key) &&
        (e.target.Workspace? || (e.target.WorkspaceFolder? && e.target.uri in folders))
  {
  }

  lemma NotAppliedMeans(was: map<Entry, Value>, c: Configuration, wanted: seq<(Key, Value)>, folders: seq<string>,
                        rest: seq<Unapplied>)
    requires c.values == AfterKeys(was, wanted, folders)
    requires forall u :: u in rest <==>
      (if folders == [] then u.folder.None? else u.folder.Some? && u.folder.value in folders) &&
      exists i :: 0 <= i < |wanted| && wanted[i].0 == u.key &&
        Effective(c.values, c.defaults, u.key, u.folder) != Some(wanted[i].1)
    ensures forall u :: u in rest <==>
      (if folders == [] then u.folder.None? else u.folder.Some? && u.folder.value in folders) &&
      exists i, j :: 0 <= i < |wanted| && 0 <= j < |wanted| && wanted[i].0 == wanted[j].0 == u.key &&
        wanted[i].1 != wanted[j].1 && forall k :: j < k < |wanted| ==> wanted[k].0 != u.key
  {
    forall u: Unapplied | Standpoint(folders, u.folder)
      ensures u in rest <==>
        exists i, j :: 0 <= i < |wanted| && 0 <= j < |wanted| && wanted[i].0 == wanted[j].0 == u.key &&
          wanted[i].1 != wanted[j].1 && forall k :: j < k < |wanted| ==> wanted[k].0 != u.key
    {
      ListedOtherwise(was, c, wanted, folders, u.key, u.folder);
    }
  }

  lemma ListedOtherwise(was: map<Entry, Value>, c: Configuration, wanted: seq<(Key, Value)>, folders: seq<string>,
                        key: Key, scope: Option<string>)
    requires c.values == AfterKeys(was, wanted, folders) && Standpoint(folders, scope)
    ensures
      (exists i :: 0 <= i < |wanted| && wanted[i].0 == key &&
         Effective(c.values, c.defaults, key, scope) != Some(wanted[i].1)) <==>
      exists i, j :: 0 <= i < |wanted| && 0 <= j < |wanted| && wanted[i].0 == wanted[j].0 == key &&
        wanted[i].1 != wanted[j].1 && forall k :: j < k < |wanted| ==> wanted[k].0 != key
  {
    if Names(wanted, key) {
      var j := LastListed(wanted, key);
      LastForIs(wanted, j);
      EffectiveAfter(was, c.defaults, wanted, folders, key, scope);
    }
  }

  lemma DriftsAreExact(was: map<Entry, Value>, now: map<Entry, Value>, wanted: seq<(Key, Value)>, folders: seq<string>,
                       prior: seq<Prior>, drifts: seq<Drift>)
    requires SameOutside(was, now, wanted, folders)
    requires forall p :: p in prior ==> Touched(wanted, folders, p.entry) && p.value == Lookup(was, p.entry)
    requires forall e :: Touched(wanted, folders, e) ==> Prior(e, Lookup(was, e)) in prior
    requires forall d :: d in drifts <==>
      Prior(d.entry, d.was) in prior && d.now == Lookup(now, d.entry) && d.now != d.was
    ensures forall d :: d in drifts <==>
      Touched(wanted, folders, d.entry) && d.now == Lookup(now, d.entry) && d.was == Lookup(was, d.entry) &&
      d.now != d.was
    ensures drifts == [] <==> now == was
  {
    SameLookups(was, now);
    if drifts == [] {
      forall e
        ensures Lookup(now, e) == Lookup(was, e)
      {
        if Touched(wanted, folders, e) {
          assert Drift(e, Lookup(now, e), Lookup(was, e)) !in drifts;
        }
      }
    } else {
      assert drifts[0] in drifts;
    }
  }

  /** After a write without failures every standpoint sees the value last listed for each key. */
  lemma EffectiveAfter(was: map<Entry, Value>, defaults: map<Key, Value>, wanted: seq<(Key, Value)>,
                       folders: seq<string>,
                       key: Key, scope: Option<string>)
    requires Names(wanted, key) && Standpoint(folders, scope)
    ensures Effective(AfterKeys(was, wanted, folders), defaults, key, scope) == LastFor(wanted, key)
  {
    AfterKeysMeans(was, wanted, folders, Entry(key, Global));
    AfterKeysMeans(was, wanted, folders, Entry(key, Workspace));
    if scope.Some? {
      AfterKeysMeans(was, wanted, folders, Entry(key, WorkspaceFolder(scope.value)));
    }
  }

  lemma {:induction false} LastIsListed(wanted: seq<(Key, Value)>, key: Key)
    requires Names(wanted, key)
    ensures exists i :: 0 <= i < |wanted| && wanted[i].0 == key && LastFor(wanted, key) == Some(wanted[i].1)
  {
    var m := |wanted| - 1;
    if wanted[m].0 != key {
      LastIsListed(wanted[..m], key);
      var i :| 0 <= i < m && wanted[..m][i].0 == key && LastFor(wanted[..m], key) == Some(wanted[..m][i].1);
      assert wanted[i].0 == key;
    }
  }

  lemma NothingLeftExactlyWhen(was: map<Entry, Value>, c: Configuration, wanted: seq<(Key, Value)>,
                               folders: seq<string>, rest: seq<Unapplied>)
    requires c.values == AfterKeys(was, wanted, folders)
    requires forall u :: u in rest <==>
      Standpoint(folders, u.folder) &&
      exists i :: 0 <= i < |wanted| && wanted[i].0 == u.key &&
        Effective(c.values, c.defaults, u.key, u.folder) != Some(wanted[i].1)
    ensures rest == [] <==> Consistent(wanted)
  {
    if Consistent(wanted) {
      if rest != [] {
        var u := rest[0];
        assert u in rest;
        var i :| 0 <= i < |wanted| && wanted[i].0 == u.key &&
          Effective(c.values, c.defaults, u.key, u.folder) != Some(wanted[i].1);
        EffectiveAfter(was, c.defaults, wanted, folders, u.key, u.folder);
        LastIsListed(wanted, u.key);
        assert false;
      }
    } else {
      var i, j :| 0 <= i < |wanted| && 0 <= j < |wanted| && wanted[i].0 == wanted[j].0 && wanted[i].1 != wanted[j].1;
      var scope := if folders == [] then None else Some(folders[0]);
      var key := wanted[i].0;
      EffectiveAfter(was, c.defaults, wanted, folders, key, scope);
      var k := if LastFor(wanted, key) == Some(wanted[i].1) then j else i;
      assert wanted[k].0 == key && Effective(c.values, c.defaults, key, scope) != Some(wanted[k].1);
      assert Unapplied(key, scope) in rest;
    }
  }

  // ---------- the two shipped levels ----------

  const UNATTENDED: seq<(Key, Value)> := [
    ("autoReviewAfterPlan", "auto-fast-forward"),
    ("autoReviewAfterImplementation", "auto-fast-forward"),
    ("autoAdvanceEnabled", "auto-fast-forward"),
    ("completeAndMoveOnTriggersAI", "auto-fast-forward"),
    ("autoImplementAfterReview", "auto")
  ]

  const SUPERVISED: seq<(Key, Value)> := [
    ("autoReviewAfterPlan", "off"),
    ("autoReviewAfterImplementation", "off"),
    ("autoAdvanceEnabled", "off"),
    ("completeAndMoveOnTriggersAI", "auto"),
    ("autoImplementAfterReview", "off")
  ]

  predicate SameKeys(a: seq<(Key, Value)>, b: seq<(Key, Value)>)
  {
    |a| == |b| && forall i :: 0 <= i < |a| ==> a[i].0 == b[i].0
  }

  /** Of two levels over the same keys the one chosen last is all that is left. */
  lemma LastLevelWins(was: map<Entry, Value>, a: seq<(Key, Value)>, b: seq<(Key, Value)>, folders: seq<string>)
    requires SameKeys(a, b)
    ensures AfterKeys(AfterKeys(was, a, folders), b, folders) == AfterKeys(was, b, folders)
  {
    var mid := AfterKeys(was, a, folders);
    var left, right := AfterKeys(mid, b, folders), AfterKeys(was, b, folders);
    forall e
      ensures Lookup(left, e) == Lookup(right, e)
    {
      AfterKeysMeans(was, a, folders, e);
      AfterKeysMeans(was, b, folders, e);
      AfterKeysMeans(mid, b, folders, e);
      SameNames(a, b, e.key);
    }
    SameLookups(right, left);
  }

  lemma SameNames(a: seq<(Key, Value)>, b: seq<(Key, Value)>, key: Key)
    requires SameKeys(a, b)
    ensures Names(a, key) <==> Names(b, key)
  {
    if Names(a, key) {
      var i :| 0 <= i < |a| && a[i].0 == key;
      assert b[i].0 == key;
    }
    if Names(b, key) {
      var i :| 0 <= i < |b| && b[i].0 == key;
      assert a[i].0 == key;
    }
  }

  lemma NoKeyTwice(level: seq<(Key, Value)>)
    requires forall i, j :: 0 <= i < |level| && 0 <= j < |level| && level[i].0 == level[j].0 ==> i == j
    ensures Consistent(level)
  {
  }

  /** No key of a shipped level is listed twice, so a level that was written without failure is in force in every
      scope; and choosing the other one afterwards leaves nothing of it. */
  lemma ShippedLevelsReplaceEachOther(was: map<Entry, Value>, folders: seq<string>)
    ensures Consistent(UNATTENDED) && Consistent(SUPERVISED)
    ensures AfterKeys(AfterKeys(was, UNATTENDED, folders), SUPERVISED, folders) == AfterKeys(was, SUPERVISED, folders)
    ensures AfterKeys(AfterKeys(was, SUPERVISED, folders), UNATTENDED, folders) == AfterKeys(was, UNATTENDED, folders)
  {
    NoKeyTwice(UNATTENDED);
    NoKeyTwice(SUPERVISED);
    LastLevelWins(was, UNATTENDED, SUPERVISED, folders);
    LastLevelWins(was, SUPERVISED, UNATTENDED, folders);
  }

  lemma LevelIsSeen(was: map<Entry, Value>, defaults: map<Key, Value>, level: seq<(Key, Value)>, folders: seq<string>,
                    scope: Option<string>)
    requires Standpoint(folders, scope)
    requires forall i, j :: 0 <= i < |level| && 0 <= j < |level| && level[i].0 == level[j].0 ==> i == j
    ensures forall i :: 0 <= i < |level| ==>
      Effective(AfterKeys(was, level, folders), defaults, level[i].0, scope) == Some(level[i].1)
  {
    forall i | 0 <= i < |level|
      ensures Effective(AfterKeys(was, level, folders), defaults, level[i].0, scope) == Some(level[i].1)
    {
      LastForIs(level, i);
      EffectiveAfter(was, defaults, level, folders, level[i].0, scope);
    }
  }

  /** What every reader sees of the two levels. */
  lemma ShippedLevelsAreSeen(was: map<Entry, Value>, defaults: map<Key, Value>, folders: seq<string>,
                             scope: Option<string>)
    requires if folders == [] then scope.None? else scope.Some? && scope.value in folders
    ensures
      var on := AfterKeys(was, UNATTENDED, folders);
      Effective(on, defaults, "autoReviewAfterPlan", scope) == Some("auto-fast-forward") &&
      Effective(on, defaults, "autoReviewAfterImplementation", scope) == Some("auto-fast-forward") &&
      Effective(on, defaults, "autoAdvanceEnabled", scope) == Some("auto-fast-forward") &&
      Effective(on, defaults, "completeAndMoveOnTriggersAI", scope) == Some("auto-fast-forward") &&
      Effective(on, defaults, "autoImplementAfterReview", scope) == Some("auto")
    ensures
      var off := AfterKeys(was, SUPERVISED, folders);
      Effective(off, defaults, "autoReviewAfterPlan", scope) == Some("off") &&
      Effective(off, defaults, "autoReviewAfterImplementation", scope) == Some("off") &&
      Effective(off, defaults, "autoAdvanceEnabled", scope) == Some("off") &&
      Effective(off, defaults, "completeAndMoveOnTriggersAI", scope) == Some("auto") &&
      Effective(off, defaults, "autoImplementAfterReview", scope) == Some("off")
  {
    LevelIsSeen(was, defaults, UNATTENDED, folders, scope);
    LevelIsSeen(was, defaults, SUPERVISED, folders, scope);
    assert UNATTENDED[0].1 == UNATTENDED[1].1 == UNATTENDED[2].1 == UNATTENDED[3].1;
    assert SUPERVISED[0].1 == SUPERVISED[1].1 == SUPERVISED[2].1 == SUPERVISED[4].1;
    assert UNATTENDED[4].1 == SUPERVISED[3].1;
  }
}
