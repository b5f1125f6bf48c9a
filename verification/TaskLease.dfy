/** Task-operation leases (src/services/workflowLeaseStoreV1.ts) and the lease phases of the coordinator
    (`acquireLeasePhase` in src/actions/taskActionCoordinatorV1.ts): any number of operations, in any interleaving. */
module TaskLease {
  import opened Wrappers

  type Binding = string
  type OperationId = nat
  type LeaseId = nat

  datatype Lease = Lease(id: LeaseId, op: OperationId)

  datatype Child = Child(under: LeaseId, op: OperationId)

  /** The store's maps; `next` has not been handed out yet. */
  datatype Store = Store(held: map<Binding, Lease>, children: map<LeaseId, Child>, next: LeaseId)

  predicate Holds(s: Store, id: LeaseId) { exists b :: b in s.held && s.held[b].id == id }

  function Acquired(s: Store, b: Binding, op: OperationId): Store
  {
    s.(held := s.held[b := Lease(s.next, op)], next := s.next + 1)
  }

  function AcquiredChild(s: Store, b: Binding, op: OperationId): Store
    requires b in s.held
  {
    s.(children := s.children[s.next := Child(s.held[b].id, op)], next := s.next + 1)
  }

  function WithoutHeld(held: map<Binding, Lease>, id: LeaseId): map<Binding, Lease>
  {
    map b | b in held && held[b].id != id :: held[b]
  }

  function WithoutChildrenOf(children: map<LeaseId, Child>, id: LeaseId): map<LeaseId, Child>
  {
    map c | c in children && children[c].under != id :: children[c]
  }

  /** Releasing a parent frees its children with it; an unknown id frees nothing. */
  function Released(s: Store, id: LeaseId): Store
  {
    if id in s.children then s.(children := s.children - {id})
    else if Holds(s, id) then s.(held := WithoutHeld(s.held, id), children := WithoutChildrenOf(s.children, id))
    else s
  }

  // ---------- the store ----------

  ghost predicate UniqueHolds(held: map<Binding, Lease>)
  {
    forall a, b :: a in held && b in held && held[a].id == held[b].id ==> a == b
  }

  class LeaseStore {
    var held: map<Binding, Lease>
    var children: map<LeaseId, Child>
    var next: LeaseId

    ghost predicate Valid()
      reads this
    {
      UniqueHolds(held) && (forall b :: b in held ==> held[b].id < next) && (forall c :: c in children ==> c < next)
    }

    function View(): Store
      reads this
    {
      Store(held, children, next)
    }

    constructor ()
      ensures Valid() && View() == Store(map[], map[], 0)
    {
      held, children, next := map[], map[], 0;
    }

    /** The single lease of a binding, or the duplicate is rejected. */
    method Acquire(b: Binding, op: OperationId) returns (id: Option<LeaseId>)
      requires Valid()
      modifies this
      ensures Valid() && (id.Some? <==> old(b !in held)) && (id.Some? ==> id.value == old(next))
      ensures View() == if id.Some? then Acquired(old(View()), b, op) else old(View())
      ensures children == old(children)
      ensures if id.Some? then held == old(held)[b := Lease(id.value, op)] && next == old(next) + 1
              else held == old(held) && next == old(next)
    {
      if b in held {
        return None;
      }
      id := Some(next);
      held, next := held[b := Lease(next, op)], next + 1;
    }

    /** A nested lease, only inside the hold of the named parent. */
    method AcquireChild(b: Binding, parent: OperationId, op: OperationId) returns (id: Option<LeaseId>)
      requires Valid()
      modifies this
      ensures Valid() && (id.Some? <==> old(b in held && held[b].op == parent)) && (id.Some? ==> id.value == old(next))
      ensures View() == if id.Some? then AcquiredChild(old(View()), b, op) else old(View())
      ensures held == old(held)
      ensures if id.Some? then children == old(children)[id.value := Child(held[b].id, op)] && next == old(next) + 1
              else children == old(children) && next == old(next)
    {
      if b !in held || held[b].op != parent {
        return None;
      }
      id := Some(next);
      children, next := children[next := Child(held[b].id, op)], next + 1;
    }

    /** Release by lease id: a late release of an id that is gone frees nothing, in particular no newer lease. */
    method Release(id: LeaseId) returns (freed: bool)
      requires Valid()
      modifies this`held, this`children
      ensures Valid() && View() == Released(old(View()), id)
      ensures freed <==> old(id in children || Holds(View(), id))
      ensures !freed ==> View() == old(View())
      ensures forall b :: b in old(held) && old(held)[b].id != id ==> b in held && held[b] == old(held)[b]
      // a nested lease goes alone; another one goes with everything nested in it
      ensures id in old(children) ==> held == old(held) && children == old(children) - {id}
      ensures id !in old(children) && freed ==>
        (forall b :: b in held <==> b in old(held) && old(held)[b].id != id) &&
        (forall c :: c in children <==> c in old(children) && old(children)[c].under != id) &&
        forall c :: c in children ==> children[c] == old(children)[c]
    {
      if id in children {
        children := children - {id};
        return true;
      }
      if !Holds(View(), id) {
        return false;
      }
      var b :| b in held && held[b].id == id;
      assert WithoutHeld(held, id) == held - {b};
      held := held - {b};
      DropChildrenOf(id);
      return true;
    }

    /** The inner loop over the child leases. */
    method DropChildrenOf(id: LeaseId)
      modifies this`children
      ensures children == WithoutChildrenOf(old(children), id)
    {
      ghost var was := children;
      var left := children.Keys;
      while left != {}
        invariant left <= was.Keys
        invariant forall c :: c in children <==> c in was && (c in left || was[c].under != id)
        invariant forall c :: c in children ==> children[c] == was[c]
        decreases left
      {
        var c :| c in left;
        left := left - {c};
        if children[c].under == id {
          children := children - {c};
        }
      }
    }
  }

  // ---------- operations in their phases ----------

  /** A phase that holds a lease names it; a row that needs none has a no-op phase. */
  datatype Phase =
    | Idle
    | Starting(lease: Option<LeaseId>)
    | Waiting
    | Calling                            // the provider is at work
    | Promoting(lease: Option<LeaseId>)
    | Over

  /** `under`: the parent's lease when the latest child lease was granted. */
  datatype Op = Op(binding: Binding, provider: bool, needsLease: bool, parent: Option<OperationId>,
                   phase: Phase, under: LeaseId, acquired: nat, released: nat)

  datatype World = World(store: Store, ops: map<OperationId, Op>)

  function LeaseOf(o: Op): Option<LeaseId>
  {
    match o.phase
    case Starting(l) => l
    case Promoting(l) => l
    case _ => None
  }

  datatype Label =
    | Begin(o: OperationId)      // START phase; a lifecycle row's whole transition
    | EndStart(o: OperationId)
    | Call(o: OperationId)
    | Reply(o: OperationId)
    | Quit(o: OperationId)       // ends without a promotion
    | Settle(o: OperationId)     // SETTLEMENT phase
    | EndSettle(o: OperationId)

  predicate Enabled(w: World, l: Label)
  {
    l.o in w.ops &&
    match l
    case Begin(o) => w.ops[o].phase.Idle?
    case EndStart(o) => w.ops[o].phase.Starting?
    case Call(o) => w.ops[o].phase.Waiting?
    case Reply(o) => w.ops[o].phase.Calling?
    case Quit(o) => w.ops[o].phase.Waiting?
    case Settle(o) => w.ops[o].phase.Waiting?
    case EndSettle(o) => w.ops[o].phase.Promoting?
  }

  function Put(w: World, o: OperationId, op: Op): World { w.(ops := w.ops[o := op]) }

  function PhaseWith(promoting: bool, lease: Option<LeaseId>): Phase
  {
    if promoting then Promoting(lease) else Starting(lease)
  }

  /** The binding's own lease is granted. */
  function Granted(w: World, o: OperationId, promoting: bool): World
    requires o in w.ops
  {
    var op := w.ops[o];
    Put(w, o, op.(phase := PhaseWith(promoting, Some(w.store.next)), acquired := op.acquired + 1))
    .(store := Acquired(w.store, op.binding, o))
  }

  /** A lease nested in the parent's is granted. */
  function Nested(w: World, o: OperationId, promoting: bool): World
    requires o in w.ops && w.ops[o].binding in w.store.held
  {
    var op := w.ops[o];
    var under := w.store.held[op.binding].id;
    Put(w, o, op.(phase := PhaseWith(promoting, Some(w.store.next)), under := under, acquired := op.acquired + 1))
    .(store := AcquiredChild(w.store, op.binding, o))
  }

  /** `acquireLeasePhase`, entering `Starting` or `Promoting`; a refused phase ends the operation. */
  function Enter(w: World, o: OperationId, promoting: bool): World
    requires o in w.ops
  {
    var op := w.ops[o];
    if !op.needsLease then Put(w, o, op.(phase := PhaseWith(promoting, None)))
    else if op.parent.None? then
      if op.binding in w.store.held then Put(w, o, op.(phase := Over)) else Granted(w, o, promoting)
    else if op.binding !in w.store.held || w.store.held[op.binding].op != op.parent.value then
      Put(w, o, op.(phase := Over))
    else Nested(w, o, promoting)
  }

  function Leave(w: World, o: OperationId, next: Phase): World
    requires o in w.ops
  {
    var op := w.ops[o];
    var lease := LeaseOf(op);
    if lease.None? then Put(w, o, op.(phase := next))
    else Put(w, o, Relinquished(op, next)).(store := Released(w.store, lease.value))
  }

  function Step(w: World, l: Label): World
    requires Enabled(w, l)
  {
    match l
    case Begin(o) => Enter(w, o, false)
    case EndStart(o) => Leave(w, o, if w.ops[o].provider then Waiting else Over)
    case Call(o) => Put(w, o, w.ops[o].(phase := Calling))
    case Reply(o) => Put(w, o, w.ops[o].(phase := Waiting))
    case Quit(o) => Put(w, o, w.ops[o].(phase := Over))
    case Settle(o) => Enter(w, o, true)
    case EndSettle(o) => Leave(w, o, Over)
  }

  predicate Legal(w: World, ls: seq<Label>)
    decreases |ls|, 0
  {
    ls == [] || (Legal(w, ls[..|ls| - 1]) && Enabled(After(w, ls[..|ls| - 1]), ls[|ls| - 1]))
  }

  function After(w: World, ls: seq<Label>): World
    requires Legal(w, ls)
    decreases |ls|, 1
  {
    if ls == [] then w else Step(After(w, ls[..|ls| - 1]), ls[|ls| - 1])
  }

  predicate Initial(w: World)
  {
    w.store == Store(map[], map[], 0) &&
    forall o :: o in w.ops ==> w.ops[o].phase.Idle? && w.ops[o].acquired == w.ops[o].released == 0
  }

  // ---------- what every step keeps ----------

  /** Is the lease this child was granted under still held on its binding? */
  predicate ParentHolds(w: World, op: Op) { op.binding in w.store.held && w.store.held[op.binding].id == op.under }

  /** The operation's lease really is in the store. */
  predicate Guarded(w: World, o: OperationId)
    requires o in w.ops && LeaseOf(w.ops[o]).Some?
  {
    var op, id := w.ops[o], LeaseOf(w.ops[o]).value;
    if op.parent.None? then op.binding in w.store.held && w.store.held[op.binding] == Lease(id, o)
    else id in w.store.children && w.store.children[id] == Child(op.under, o)
  }

  ghost predicate OpInv(w: World, o: OperationId)
    requires o in w.ops
  {
    var op := w.ops[o];
    op.acquired == op.released + (if LeaseOf(op).Some? then 1 else 0) &&
    (LeaseOf(op).Some? ==>
      op.needsLease && LeaseOf(op).value < w.store.next &&
      (op.parent.None? ==> Guarded(w, o)) &&
      (op.parent.Some? ==> op.under < LeaseOf(op).value && (Guarded(w, o) <==> ParentHolds(w, op)))) &&
    (op.needsLease && (op.phase.Starting? || op.phase.Promoting?) ==> LeaseOf(op).Some?)
  }

  ghost predicate HeldInv(w: World, b: Binding)
    requires b in w.store.held
  {
    var l := w.store.held[b];
    l.op in w.ops && w.ops[l.op].binding == b && w.ops[l.op].parent.None? && LeaseOf(w.ops[l.op]) == Some(l.id)
  }

  ghost predicate ChildInv(w: World, id: LeaseId)
    requires id in w.store.children
  {
    var c := w.store.children[id];
    c.op in w.ops && w.ops[c.op].parent.Some? && LeaseOf(w.ops[c.op]) == Some(id) && w.ops[c.op].under == c.under &&
    ParentHolds(w, w.ops[c.op]) && w.store.held[w.ops[c.op].binding].op == w.ops[c.op].parent.value
  }

  ghost predicate AllOps(w: World) { forall o :: o in w.ops ==> OpInv(w, o) }

  ghost predicate AllHeld(w: World) { forall b :: b in w.store.held ==> HeldInv(w, b) }

  ghost predicate AllChildren(w: World) { forall id :: id in w.store.children ==> ChildInv(w, id) }

  ghost predicate OneLeaseEach(w: World)
  {
    forall a, b ::
      a in w.ops && b in w.ops && LeaseOf(w.ops[a]).Some? && LeaseOf(w.ops[a]) == LeaseOf(w.ops[b]) ==> a == b
  }

  ghost predicate Inv(w: World) { AllOps(w) && AllHeld(w) && AllChildren(w) && OneLeaseEach(w) }

  /** Changing one operation, its binding and kin apart, leaves the others' books alone while the store stays. */
  lemma OtherOp(w: World, o: OperationId, op: Op, a: OperationId)
    requires o in w.ops && a in w.ops && a != o && OpInv(w, a)
    ensures OpInv(Put(w, o, op), a)
  {
  }

  lemma SameHeld(w: World, o: OperationId, op: Op, b: Binding)
    requires o in w.ops && b in w.store.held && HeldInv(w, b)
    requires
      w.store.held[b].op == o ==>
        op.binding == w.ops[o].binding && op.parent == w.ops[o].parent && LeaseOf(op) == LeaseOf(w.ops[o])
    ensures HeldInv(Put(w, o, op), b)
  {
  }

  lemma SameChild(w: World, o: OperationId, op: Op, id: LeaseId)
    requires o in w.ops && id in w.store.children && ChildInv(w, id) && w.store.children[id].op != o
    ensures ChildInv(Put(w, o, op), id)
  {
  }

  /** The operation has no lease before and after. */
  lemma PutKeepsInv(w: World, o: OperationId, op: Op)
    requires Inv(w) && o in w.ops
    requires op == w.ops[o].(phase := op.phase) && LeaseOf(op) == LeaseOf(w.ops[o]) == None
    requires op.needsLease ==> !op.phase.Starting? && !op.phase.Promoting?
    ensures Inv(Put(w, o, op))
  {
    var w' := Put(w, o, op);
    assert OpInv(w, o);
    forall a | a in w'.ops
      ensures OpInv(w', a)
    {
      if a != o {
        OtherOp(w, o, op, a);
      }
    }
    forall b | b in w'.store.held
      ensures HeldInv(w', b)
    {
      SameHeld(w, o, op, b);
    }
    forall id | id in w'.store.children
      ensures ChildInv(w', id)
    {
      assert ChildInv(w, id);
      SameChild(w, o, op, id);
    }
  }

  // ---------- acquiring ----------

  lemma GrantOther(w: World, o: OperationId, op: Op, a: OperationId)
    requires o in w.ops && op.binding !in w.store.held && a in w.ops && a != o && OpInv(w, a)
    ensures OpInv(Put(w, o, op).(store := Acquired(w.store, op.binding, o)), a)
  {
  }

  lemma GrantHeld(w: World, o: OperationId, op: Op, b: Binding)
    requires o in w.ops && LeaseOf(w.ops[o]).None? && op.binding !in w.store.held && b in w.store.held && HeldInv(w, b)
    ensures HeldInv(Put(w, o, op).(store := Acquired(w.store, op.binding, o)), b)
  {
  }

  lemma GrantChild(w: World, o: OperationId, op: Op, id: LeaseId)
    requires o in w.ops && LeaseOf(w.ops[o]).None? && op.binding !in w.store.held
    requires id in w.store.children && ChildInv(w, id)
    ensures ChildInv(Put(w, o, op).(store := Acquired(w.store, op.binding, o)), id)
  {
  }

  /** A new lease is nobody else's. */
  lemma FreshLease(w: World, o: OperationId, op: Op, s: Store)
    requires Inv(w) && o in w.ops && LeaseOf(op) == Some(w.store.next)
    ensures OneLeaseEach(Put(w, o, op).(store := s))
  {
    forall a | a in w.ops && a != o
      ensures LeaseOf(w.ops[a]) != Some(w.store.next)
    {
      assert OpInv(w, a);
    }
  }

  lemma GrantKeepsInv(w: World, o: OperationId, promoting: bool)
    requires Inv(w) && o in w.ops && LeaseOf(w.ops[o]).None? && w.ops[o].parent.None? && w.ops[o].needsLease
    requires w.ops[o].binding !in w.store.held
    ensures Inv(Granted(w, o, promoting))
  {
    var w' := Granted(w, o, promoting);
    var op := w'.ops[o];
    assert OpInv(w, o);
    assert OpInv(w', o);
    forall a | a in w'.ops
      ensures OpInv(w', a)
    {
      if a != o {
        GrantOther(w, o, op, a);
      }
    }
    forall b | b in w'.store.held
      ensures HeldInv(w', b)
    {
      if b != op.binding {
        GrantHeld(w, o, op, b);
      }
    }
    forall id | id in w'.store.children
      ensures ChildInv(w', id)
    {
      GrantChild(w, o, op, id);
    }
    FreshLease(w, o, op, w'.store);
  }

  lemma NestOther(w: World, o: OperationId, op: Op, a: OperationId)
    requires o in w.ops && op.binding in w.store.held && a in w.ops && a != o && OpInv(w, a)
    ensures OpInv(Put(w, o, op).(store := AcquiredChild(w.store, op.binding, o)), a)
  {
  }

  lemma NestHeld(w: World, o: OperationId, op: Op, b: Binding)
    requires o in w.ops && LeaseOf(w.ops[o]).None? && op.binding in w.store.held && b in w.store.held && HeldInv(w, b)
    ensures HeldInv(Put(w, o, op).(store := AcquiredChild(w.store, op.binding, o)), b)
  {
  }

  lemma NestChild(w: World, o: OperationId, op: Op, id: LeaseId)
    requires o in w.ops && LeaseOf(w.ops[o]).None? && op.binding in w.store.held
    requires id in w.store.children && ChildInv(w, id) && id != w.store.next
    ensures ChildInv(Put(w, o, op).(store := AcquiredChild(w.store, op.binding, o)), id)
  {
  }

  lemma NestOwn(w: World, o: OperationId, promoting: bool)
    requires o in w.ops && LeaseOf(w.ops[o]).None? && w.ops[o].parent.Some? && w.ops[o].needsLease && OpInv(w, o)
    requires w.ops[o].binding in w.store.held && w.store.held[w.ops[o].binding].op == w.ops[o].parent.value
    requires w.store.held[w.ops[o].binding].id < w.store.next
    ensures OpInv(Nested(w, o, promoting), o) && ChildInv(Nested(w, o, promoting), w.store.next)
  {
  }

  lemma HeldIsOld(w: World, b: Binding)
    requires Inv(w) && b in w.store.held
    ensures w.store.held[b].id < w.store.next
  {
    assert HeldInv(w, b);
    assert OpInv(w, w.store.held[b].op);
  }

  lemma NestKeepsInv(w: World, o: OperationId, promoting: bool)
    requires Inv(w) && o in w.ops && LeaseOf(w.ops[o]).None? && w.ops[o].parent.Some? && w.ops[o].needsLease
    requires w.ops[o].binding in w.store.held && w.store.held[w.ops[o].binding].op == w.ops[o].parent.value
    ensures Inv(Nested(w, o, promoting))
  {
    var w' := Nested(w, o, promoting);
    var op := w'.ops[o];
    HeldIsOld(w, op.binding);
    NestOwn(w, o, promoting);
    forall a | a in w'.ops
      ensures OpInv(w', a)
    {
      if a != o {
        NestOther(w, o, op, a);
      }
    }
    forall b | b in w'.store.held
      ensures HeldInv(w', b)
    {
      NestHeld(w, o, op, b);
    }
    forall id | id in w'.store.children
      ensures ChildInv(w', id)
    {
      if id != w.store.next {
        NestChild(w, o, op, id);
      }
    }
    FreshLease(w, o, op, w'.store);
  }

  lemma EnterKeepsInv(w: World, o: OperationId, promoting: bool)
    requires Inv(w) && o in w.ops && (w.ops[o].phase.Idle? || w.ops[o].phase.Waiting?)
    ensures Inv(Enter(w, o, promoting))
  {
    var op := w.ops[o];
    if !op.needsLease {
      PutKeepsInv(w, o, op.(phase := PhaseWith(promoting, None)));
    } else if op.parent.None? {
      if op.binding in w.store.held {
        PutKeepsInv(w, o, op.(phase := Over));
      } else {
        GrantKeepsInv(w, o, promoting);
      }
    } else if op.binding !in w.store.held || w.store.held[op.binding].op != op.parent.value {
      PutKeepsInv(w, o, op.(phase := Over));
    } else {
      NestKeepsInv(w, o, promoting);
    }
  }

  // ---------- releasing ----------

  /** The operation after it gave its lease back. */
  function Relinquished(op: Op, next: Phase): Op { op.(phase := next, released := op.released + 1) }

  lemma LeaseGone(w: World, o: OperationId, op: Op, s: Store)
    requires Inv(w) && o in w.ops && LeaseOf(op).None?
    ensures OneLeaseEach(Put(w, o, op).(store := s))
  {
  }

  lemma UnnestOther(w: World, o: OperationId, op: Op, id: LeaseId, a: OperationId)
    requires o in w.ops && a in w.ops && a != o && OpInv(w, a) && LeaseOf(w.ops[a]) != Some(id)
    ensures OpInv(Put(w, o, op).(store := w.store.(children := w.store.children - {id})), a)
  {
  }

  lemma UnnestHeld(w: World, o: OperationId, op: Op, id: LeaseId, b: Binding)
    requires o in w.ops && w.ops[o].parent.Some? && b in w.store.held && HeldInv(w, b)
    ensures HeldInv(Put(w, o, op).(store := w.store.(children := w.store.children - {id})), b)
  {
  }

  lemma UnnestChild(w: World, o: OperationId, op: Op, id: LeaseId, c: LeaseId)
    requires o in w.ops && LeaseOf(w.ops[o]) == Some(id) && c in w.store.children && c != id && ChildInv(w, c)
    ensures ChildInv(Put(w, o, op).(store := w.store.(children := w.store.children - {id})), c)
  {
  }

  /** A nested lease goes. */
  lemma UnnestKeepsInv(w: World, o: OperationId, op: Op, id: LeaseId)
    requires Inv(w) && o in w.ops && LeaseOf(w.ops[o]) == Some(id) && id in w.store.children
    requires op == Relinquished(w.ops[o], op.phase) && (op.phase.Waiting? || op.phase.Over?)
    ensures Inv(Put(w, o, op).(store := w.store.(children := w.store.children - {id})))
  {
    var w' := Put(w, o, op).(store := w.store.(children := w.store.children - {id}));
    assert ChildInv(w, id) && OpInv(w, o) && w.store.children[id].op == o;
    forall a | a in w'.ops
      ensures OpInv(w', a)
    {
      if a != o {
        UnnestOther(w, o, op, id, a);
      }
    }
    forall b | b in w'.store.held
      ensures HeldInv(w', b)
    {
      UnnestHeld(w, o, op, id, b);
    }
    forall c | c in w'.store.children
      ensures ChildInv(w', c)
    {
      UnnestChild(w, o, op, id, c);
    }
    LeaseGone(w, o, op, w'.store);
  }

  /** A lease that is gone already. */
  lemma LateReleaseKeepsInv(w: World, o: OperationId, op: Op, id: LeaseId)
    requires Inv(w) && o in w.ops && LeaseOf(w.ops[o]) == Some(id) && id !in w.store.children && !Holds(w.store, id)
    requires op == Relinquished(w.ops[o], op.phase) && (op.phase.Waiting? || op.phase.Over?)
    ensures Inv(Put(w, o, op))
  {
    var w' := Put(w, o, op);
    assert OpInv(w, o);
    forall a | a in w'.ops
      ensures OpInv(w', a)
    {
      if a != o {
        OtherOp(w, o, op, a);
      }
    }
    forall b | b in w'.store.held
      ensures HeldInv(w', b)
    {
      assert HeldInv(w, b);
      SameHeld(w, o, op, b);
    }
    forall c | c in w'.store.children
      ensures ChildInv(w', c)
    {
      assert ChildInv(w, c);
      SameChild(w, o, op, c);
    }
    LeaseGone(w, o, op, w.store);
  }

  lemma OnlyItsBindingHolds(w: World, o: OperationId, id: LeaseId)
    requires Inv(w) && o in w.ops && LeaseOf(w.ops[o]) == Some(id) && Holds(w.store, id)
    ensures w.ops[o].parent.None? && w.ops[o].binding in w.store.held && w.store.held[w.ops[o].binding] == Lease(id, o)
    ensures forall b :: b in w.store.held && w.store.held[b].id == id ==> b == w.ops[o].binding
    ensures WithoutHeld(w.store.held, id) == w.store.held - {w.ops[o].binding}
  {
    assert OpInv(w, o);
    forall b | b in w.store.held && w.store.held[b].id == id
      ensures b == w.ops[o].binding && w.store.held[b].op == o
    {
      assert HeldInv(w, b);
    }
  }

  /** The store without the lease `id` of `o`'s binding. */
  function Freed(w: World, o: OperationId, id: LeaseId): Store
    requires o in w.ops
  {
    w.store.(held := w.store.held - {w.ops[o].binding}, children := WithoutChildrenOf(w.store.children, id))
  }

  lemma FreedOther(w: World, o: OperationId, op: Op, id: LeaseId, a: OperationId)
    requires o in w.ops && a in w.ops && a != o && OpInv(w, a)
    requires w.ops[o].binding in w.store.held && w.store.held[w.ops[o].binding] == Lease(id, o)
    requires
      LeaseOf(w.ops[a]).Some? && LeaseOf(w.ops[a]).value in w.store.children ==>
        ChildInv(w, LeaseOf(w.ops[a]).value)
    requires forall b :: b in w.store.held && w.store.held[b].id == id ==> b == w.ops[o].binding
    ensures OpInv(Put(w, o, op).(store := Freed(w, o, id)), a)
  {
  }

  lemma FreedHeld(w: World, o: OperationId, op: Op, id: LeaseId, b: Binding)
    requires o in w.ops && w.ops[o].binding in w.store.held && LeaseOf(w.ops[o]) == Some(id)
    requires b in w.store.held && b != w.ops[o].binding && HeldInv(w, b)
    ensures HeldInv(Put(w, o, op).(store := Freed(w, o, id)), b)
  {
  }

  lemma FreedChild(w: World, o: OperationId, op: Op, id: LeaseId, c: LeaseId)
    requires o in w.ops && w.ops[o].parent.None?
    requires w.ops[o].binding in w.store.held && w.store.held[w.ops[o].binding] == Lease(id, o)
    requires c in w.store.children && w.store.children[c].under != id && ChildInv(w, c)
    ensures ChildInv(Put(w, o, op).(store := Freed(w, o, id)), c)
  {
  }

  /** A top-level lease goes, and the leases nested in it with it. */
  lemma ReleaseKeepsInv(w: World, o: OperationId, op: Op, id: LeaseId)
    requires Inv(w) && o in w.ops && LeaseOf(w.ops[o]) == Some(id) && id !in w.store.children && Holds(w.store, id)
    requires op == Relinquished(w.ops[o], op.phase) && (op.phase.Waiting? || op.phase.Over?)
    ensures Inv(Put(w, o, op).(store := Released(w.store, id)))
  {
    OnlyItsBindingHolds(w, o, id);
    var w' := Put(w, o, op).(store := Freed(w, o, id));
    assert Released(w.store, id) == Freed(w, o, id);
    assert OpInv(w, o);
    forall a | a in w'.ops
      ensures OpInv(w', a)
    {
      if a != o {
        FreedOther(w, o, op, id, a);
      }
    }
    forall b | b in w'.store.held
      ensures HeldInv(w', b)
    {
      FreedHeld(w, o, op, id, b);
    }
    forall c | c in w'.store.children
      ensures ChildInv(w', c)
    {
      FreedChild(w, o, op, id, c);
    }
    LeaseGone(w, o, op, w'.store);
  }

  lemma ReleasedKeepsInv(w: World, o: OperationId, op: Op, id: LeaseId)
    requires Inv(w) && o in w.ops && LeaseOf(w.ops[o]) == Some(id)
    requires op == Relinquished(w.ops[o], op.phase) && (op.phase.Waiting? || op.phase.Over?)
    ensures Inv(Put(w, o, op).(store := Released(w.store, id)))
  {
    if id in w.store.children {
      UnnestKeepsInv(w, o, op, id);
    } else if Holds(w.store, id) {
      ReleaseKeepsInv(w, o, op, id);
    } else {
      LateReleaseKeepsInv(w, o, op, id);
      assert Put(w, o, op).(store := w.store) == Put(w, o, op);
    }
  }

  lemma LeaveNoLease(w: World, o: OperationId, next: Phase)
    requires Inv(w) && o in w.ops && LeaseOf(w.ops[o]).None? && (next.Waiting? || next.Over?)
    ensures Inv(Leave(w, o, next))
  {
    PutKeepsInv(w, o, w.ops[o].(phase := next));
  }

  lemma LeaveLease(w: World, o: OperationId, next: Phase)
    requires Inv(w) && o in w.ops && LeaseOf(w.ops[o]).Some? && (next.Waiting? || next.Over?)
    ensures Inv(Leave(w, o, next))
  {
    ReleasedKeepsInv(w, o, Relinquished(w.ops[o], next), LeaseOf(w.ops[o]).value);
  }

  lemma LeaveKeepsInv(w: World, o: OperationId, next: Phase)
    requires Inv(w) && o in w.ops && (w.ops[o].phase.Starting? || w.ops[o].phase.Promoting?)
    requires next.Waiting? || next.Over?
    ensures Inv(Leave(w, o, next))
  {
    if LeaseOf(w.ops[o]).None? {
      LeaveNoLease(w, o, next);
    } else {
      LeaveLease(w, o, next);
    }
  }

  lemma StepKeepsInv(w: World, l: Label)
    requires Inv(w) && Enabled(w, l)
    ensures Inv(Step(w, l))
  {
    match l
    case Begin(o) => EnterKeepsInv(w, o, false);
    case Settle(o) => EnterKeepsInv(w, o, true);
    case EndStart(o) => LeaveKeepsInv(w, o, if w.ops[o].provider then Waiting else Over);
    case EndSettle(o) => LeaveKeepsInv(w, o, Over);
    case _ => PutKeepsInv(w, l.o, Step(w, l).ops[l.o]);
  }

  lemma {:induction false} RunKeepsInv(w: World, ls: seq<Label>)
    requires Initial(w) && Legal(w, ls)
    ensures Inv(After(w, ls))
  {
    if ls != [] {
      RunKeepsInv(w, ls[..|ls| - 1]);
      StepKeepsInv(After(w, ls[..|ls| - 1]), ls[|ls| - 1]);
    }
  }

  // ---------- the rules of a phase ----------

  /** A phase of a row that needs the lease begins exactly when the task is free, or for a nested operation exactly when
      its parent holds the task; otherwise it ends the operation and leaves the store alone. */
  lemma HowAPhaseBegins(w: World, ls: seq<Label>, o: OperationId, promoting: bool)
    requires Initial(w) && Legal(w, ls) && Enabled(After(w, ls), if promoting then Settle(o) else Begin(o))
    ensures
      var v, v' := After(w, ls), Step(After(w, ls), if promoting then Settle(o) else Begin(o));
      var op, s, s' := v.ops[o], v.store, v'.store;
      var lease := if op.needsLease then Some(s.next) else None;
      var holder := if op.binding in s.held then Some(s.held[op.binding].op) else None;
      v'.ops.Keys == v.ops.Keys && (forall x :: x in v.ops && x != o ==> v'.ops[x] == v.ops[x]) &&
      if op.needsLease && holder != op.parent then s' == s && v'.ops[o].phase == Over
      else
        v'.ops[o].phase == (if promoting then Promoting(lease) else Starting(lease)) &&
        if !op.needsLease then s' == s
        else if op.parent.None? then s' == Store(s.held[op.binding := Lease(s.next, o)], s.children, s.next + 1)
        else s' == Store(s.held, s.children[s.next := Child(s.held[op.binding].id, o)], s.next + 1)
  {
  }

  lemma NestedIsGivenUp(w: World, o: OperationId, id: LeaseId)
    requires Inv(w) && o in w.ops && LeaseOf(w.ops[o]) == Some(id) && w.ops[o].parent.Some?
    ensures
      var s, s' := w.store, Released(w.store, id);
      s'.held == s.held && s'.next == s.next &&
      forall c :: c in s'.children <==> c in s.children && s.children[c].op != o
  {
    forall c | c in w.store.children && w.store.children[c].op == o
      ensures c == id
    {
      assert ChildInv(w, c);
    }
    if id !in w.store.children && Holds(w.store, id) {
      OnlyItsBindingHolds(w, o, id);
    }
  }

  lemma OwnIsGivenUp(w: World, o: OperationId, id: LeaseId)
    requires Inv(w) && o in w.ops && LeaseOf(w.ops[o]) == Some(id) && w.ops[o].parent.None?
    ensures
      var b, s, s' := w.ops[o].binding, w.store, Released(w.store, id);
      b in s.held && s.held[b].id == id && s'.held == s.held - {b} && s'.next == s.next &&
      forall c :: c in s'.children <==> c in s.children && s.children[c].under != id
  {
    assert OpInv(w, o) && Holds(w.store, id);
    OnlyItsBindingHolds(w, o, id);
    assert AllChildren(w);
  }

  /** A phase that ends gives up exactly its own lease: a nested one alone, another one with everything nested in it. A
      provider row then waits, every other operation is over. */
  lemma HowAPhaseEnds(w: World, ls: seq<Label>, o: OperationId, promoting: bool)
    requires Initial(w) && Legal(w, ls) && Enabled(After(w, ls), if promoting then EndSettle(o) else EndStart(o))
    ensures
      var v, v' := After(w, ls), Step(After(w, ls), if promoting then EndSettle(o) else EndStart(o));
      var op, s, s' := v.ops[o], v.store, v'.store;
      v'.ops.Keys == v.ops.Keys && (forall x :: x in v.ops && x != o ==> v'.ops[x] == v.ops[x]) &&
      v'.ops[o].phase == (if !promoting && op.provider then Waiting else Over) && s'.next == s.next &&
      if !op.needsLease then s' == s
      else if op.parent.None? then
        op.binding in s.held && s'.held == s.held - {op.binding} &&
        forall c :: c in s'.children <==> c in s.children && s.children[c].under != s.held[op.binding].id
      else s'.held == s.held && forall c :: c in s'.children <==> c in s.children && s.children[c].op != o
  {
    RunKeepsInv(w, ls);
    var v := After(w, ls);
    assert OpInv(v, o);
    if v.ops[o].needsLease {
      var id := LeaseOf(v.ops[o]).value;
      if v.ops[o].parent.None? {
        OwnIsGivenUp(v, o, id);
      } else {
        NestedIsGivenUp(v, o, id);
      }
    }
  }

  /** Between its phases an operation calls its provider, waits again, or quits, and leaves the store alone. */
  lemma HowAnOperationWaits(w: World, ls: seq<Label>, l: Label)
    requires Initial(w) && Legal(w, ls) && Enabled(After(w, ls), l) && (l.Call? || l.Reply? || l.Quit?)
    ensures
      var v, v' := After(w, ls), Step(After(w, ls), l);
      (v.ops[l.o].phase == if l.Reply? then Calling else Waiting) && v'.store == v.store &&
      v'.ops == v.ops[l.o := v.ops[l.o].(phase := if l.Call? then Calling else if l.Reply? then Waiting else Over)]
  {
  }

  // ---------- the discipline ----------

  /** No lease in the store belongs to an operation whose provider is at work. */
  lemma NoLeaseDuringTheCall(w: World, ls: seq<Label>, o: OperationId)
    requires Initial(w) && Legal(w, ls) && o in After(w, ls).ops && After(w, ls).ops[o].phase.Calling?
    ensures forall b :: b in After(w, ls).store.held ==> After(w, ls).store.held[b].op != o
    ensures forall id :: id in After(w, ls).store.children ==> After(w, ls).store.children[id].op != o
  {
    RunKeepsInv(w, ls);
    var v := After(w, ls);
    assert forall b :: b in v.store.held ==> HeldInv(v, b);
    assert forall id :: id in v.store.children ==> ChildInv(v, id);
  }

  /** A promotion of a row that needs the lease runs under it: always for an operation of its own, and for a nested
      one exactly while its parent has not released. */
  lemma PromotionIsGuardedExactlyWhen(w: World, ls: seq<Label>, o: OperationId)
    requires Initial(w) && Legal(w, ls) && o in After(w, ls).ops
    requires After(w, ls).ops[o].phase.Promoting? && After(w, ls).ops[o].needsLease
    ensures
      var v := After(w, ls);
      LeaseOf(v.ops[o]).Some? && (Guarded(v, o) <==> v.ops[o].parent.None? || ParentHolds(v, v.ops[o]))
  {
    RunKeepsInv(w, ls);
    assert OpInv(After(w, ls), o);
  }

  /** One is the other's parent, or both have the same parent. */
  predicate Related(a: OperationId, opA: Op, b: OperationId, opB: Op)
  {
    opA.parent == Some(b) || opB.parent == Some(a) || (opA.parent.Some? && opA.parent == opB.parent)
  }

  /** A phase is ended only once none of the operation's nested operations is inside a phase of its own; so do callers
      that await a nested operation before they go on. */
  predicate Awaits(w: World, l: Label)
  {
    l.EndStart? || l.EndSettle? ==>
      forall c :: c in w.ops && w.ops[c].parent == Some(l.o) ==> LeaseOf(w.ops[c]).None?
  }

  predicate AlwaysAwaits(w: World, ls: seq<Label>)
    requires Legal(w, ls)
  {
    ls == [] || (AlwaysAwaits(w, ls[..|ls| - 1]) && Awaits(After(w, ls[..|ls| - 1]), ls[|ls| - 1]))
  }

  /** Every nested lease lies inside its parent's hold. */
  ghost predicate AllNested(w: World)
  {
    forall o :: o in w.ops && w.ops[o].parent.Some? && LeaseOf(w.ops[o]).Some? ==> ParentHolds(w, w.ops[o])
  }

  lemma EnterStaysNested(w: World, o: OperationId, promoting: bool)
    requires Inv(w) && AllNested(w) && o in w.ops && (w.ops[o].phase.Idle? || w.ops[o].phase.Waiting?)
    ensures AllNested(Enter(w, o, promoting))
  {
  }

  /** A nested operation inside a hold is known to the store as its child, and names the holder as its parent. */
  lemma NestedNamesTheHolder(w: World, o: OperationId)
    requires Inv(w) && o in w.ops && w.ops[o].parent.Some? && LeaseOf(w.ops[o]).Some? && ParentHolds(w, w.ops[o])
    ensures w.store.held[w.ops[o].binding].op == w.ops[o].parent.value
  {
    assert OpInv(w, o);
    assert ChildInv(w, LeaseOf(w.ops[o]).value);
  }

  lemma LeaveStaysNested(w: World, o: OperationId, next: Phase)
    requires Inv(w) && AllNested(w) && o in w.ops && LeaseOf(w.ops[o]).Some? && (next.Waiting? || next.Over?)
    requires forall c :: c in w.ops && w.ops[c].parent == Some(o) ==> LeaseOf(w.ops[c]).None?
    ensures AllNested(Leave(w, o, next))
  {
    var w', id := Leave(w, o, next), LeaseOf(w.ops[o]).value;
    forall a | a in w'.ops && w'.ops[a].parent.Some? && LeaseOf(w'.ops[a]).Some?
      ensures ParentHolds(w', w'.ops[a])
    {
      assert a != o && w'.ops[a] == w.ops[a];
      NestedNamesTheHolder(w, a);
      if id !in w.store.children && Holds(w.store, id) {
        OnlyItsBindingHolds(w, o, id);
      }
    }
  }

  lemma StepStaysNested(w: World, l: Label)
    requires Inv(w) && AllNested(w) && Enabled(w, l) && Awaits(w, l)
    ensures AllNested(Step(w, l))
  {
    match l
    case Begin(o) => EnterStaysNested(w, o, false);
    case Settle(o) => EnterStaysNested(w, o, true);
    case EndStart(o) =>
      if LeaseOf(w.ops[o]).Some? {
        LeaveStaysNested(w, o, if w.ops[o].provider then Waiting else Over);
      }
    case EndSettle(o) =>
      if LeaseOf(w.ops[o]).Some? {
        LeaveStaysNested(w, o, Over);
      }
    case _ =>
  }

  /** With waiting parents no nested lease ever outlives the hold it was granted in. */
  lemma {:induction false} RunStaysNested(w: World, ls: seq<Label>)
    requires Initial(w) && Legal(w, ls) && AlwaysAwaits(w, ls)
    ensures AllNested(After(w, ls))
  {
    if ls != [] {
      var front := ls[..|ls| - 1];
      RunStaysNested(w, front);
      RunKeepsInv(w, front);
      StepStaysNested(After(w, front), ls[|ls| - 1]);
    }
  }

  /** So two operations that are inside a lease phase on one task at once are always related; in particular no two
      unrelated ones ever promote into it at once. */
  lemma OneUnrelatedPromotion(w: World, ls: seq<Label>, a: OperationId, b: OperationId)
    requires Initial(w) && Legal(w, ls) && AlwaysAwaits(w, ls)
    requires
      var v := After(w, ls);
      a != b && a in v.ops && b in v.ops && v.ops[a].binding == v.ops[b].binding &&
      LeaseOf(v.ops[a]).Some? && LeaseOf(v.ops[b]).Some?
    ensures Related(a, After(w, ls).ops[a], b, After(w, ls).ops[b])
  {
    RunKeepsInv(w, ls);
    RunStaysNested(w, ls);
    var v := After(w, ls);
    assert OpInv(v, a) && OpInv(v, b);
    if v.ops[a].parent.Some? {
      NestedNamesTheHolder(v, a);
    }
    if v.ops[b].parent.Some? {
      NestedNamesTheHolder(v, b);
    }
  }

  /** Every acquire is matched by one release, and an operation that is over has released all it acquired. */
  lemma EveryAcquireIsReleasedOnce(w: World, ls: seq<Label>, o: OperationId)
    requires Initial(w) && Legal(w, ls) && o in After(w, ls).ops
    ensures
      var op := After(w, ls).ops[o];
      op.acquired == op.released + (if LeaseOf(op).Some? then 1 else 0) &&
      (op.phase.Over? || op.phase.Calling? ==> op.acquired == op.released)
  {
    RunKeepsInv(w, ls);
    assert OpInv(After(w, ls), o);
  }

  // ---------- a parent that does not wait ----------

  lemma OneStep(w: World, ls: seq<Label>, l: Label)
    requires Legal(w, ls) && Enabled(After(w, ls), l)
    ensures Legal(w, ls + [l]) && After(w, ls + [l]) == Step(After(w, ls), l)
  {
    assert (ls + [l])[..|ls + [l]| - 1] == ls;
  }

  /** Only `o` moved. */
  predicate OthersStay(v: World, v': World, o: OperationId)
  {
    v'.ops.Keys == v.ops.Keys && forall a :: a in v.ops && a != o ==> v'.ops[a] == v.ops[a]
  }

  /** Where a task is free, an operation of its own that has not begun yet can go through to its promotion. */
  lemma AFreeTaskIsEntered(w: World, ls: seq<Label>, o: OperationId) returns (more: seq<Label>)
    requires Initial(w) && Legal(w, ls)
    requires
      var v := After(w, ls);
      o in v.ops && v.ops[o].phase.Idle? && v.ops[o].provider && v.ops[o].needsLease && v.ops[o].parent.None? &&
      v.ops[o].binding !in v.store.held
    ensures Legal(w, more) && OthersStay(After(w, ls), After(w, more), o)
    ensures
      var op := After(w, more).ops[o];
      op.phase.Promoting? && LeaseOf(op).Some? && op.parent.None? && op.binding == After(w, ls).ops[o].binding
  {
    var v := After(w, ls);
    OneStep(w, ls, Begin(o));
    more := ls + [Begin(o)];
    var v1 := After(w, more);
    assert v1 == Granted(v, o, false);
    RunKeepsInv(w, more);
    OnlyItsBindingHolds(v1, o, v.store.next);
    assert OpInv(v1, o) && v.store.next !in v1.store.children by {
      assert v.store.next in v1.store.children ==> ChildInv(v1, v.store.next);
    }
    OneStep(w, more, EndStart(o));
    more := more + [EndStart(o)];
    assert v.ops[o].binding !in After(w, more).store.held;
    OneStep(w, more, Settle(o));
    more := more + [Settle(o)];
  }

  /** The hold ends, and with it the task is free. */
  lemma TheHolderLeaves(w: World, ls: seq<Label>, p: OperationId) returns (more: seq<Label>)
    requires Initial(w) && Legal(w, ls)
    requires
      var v := After(w, ls);
      p in v.ops && v.ops[p].parent.None? && LeaseOf(v.ops[p]).Some?
    ensures Legal(w, more) && OthersStay(After(w, ls), After(w, more), p)
    ensures After(w, ls).ops[p].binding !in After(w, more).store.held
  {
    var v := After(w, ls);
    var id := LeaseOf(v.ops[p]).value;
    RunKeepsInv(w, ls);
    assert OpInv(v, p);
    OnlyItsBindingHolds(v, p, id);
    assert id in v.store.children ==> ChildInv(v, id);
    var l := if v.ops[p].phase.Starting? then EndStart(p) else EndSettle(p);
    OneStep(w, ls, l);
    more := ls + [l];
    assert After(w, more).store.held == WithoutHeld(v.store.held, id);
  }

  /** The waiting is needed, in every reachable world: wherever an operation is nested in a hold and inside a phase of
      its own, its parent can leave, and then any unrelated operation on that task that has not begun yet can promote
      while the nested one is still inside. */
  lemma AnImpatientParentBreaksExclusion(w: World, ls: seq<Label>, c: OperationId, o: OperationId)
      returns (more: seq<Label>)
    requires Initial(w) && Legal(w, ls)
    requires
      var v := After(w, ls);
      c in v.ops && v.ops[c].parent.Some? && LeaseOf(v.ops[c]).Some? && ParentHolds(v, v.ops[c])
    requires
      var v := After(w, ls);
      o in v.ops && v.ops[o].phase.Idle? && v.ops[o].provider && v.ops[o].needsLease && v.ops[o].parent.None? &&
      v.ops[o].binding == v.ops[c].binding
    ensures Legal(w, more)
    ensures
      var v := After(w, more);
      c in v.ops && o in v.ops && c != o && v.ops[c] == After(w, ls).ops[c] && v.ops[o].phase.Promoting? &&
      LeaseOf(v.ops[o]).Some? && v.ops[o].binding == v.ops[c].binding && !Related(c, v.ops[c], o, v.ops[o])
  {
    var v := After(w, ls);
    RunKeepsInv(w, ls);
    NestedNamesTheHolder(v, c);
    assert HeldInv(v, v.ops[c].binding);
    var p := v.ops[c].parent.value;
    var left := TheHolderLeaves(w, ls, p);
    more := AFreeTaskIsEntered(w, left, o);
  }
}
