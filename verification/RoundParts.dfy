/** The objects one provider round works on beside its selection session: the durable pending record of a
    question-capable invocation, the broker that reaches the provider, and the operation's lease phases. */
module RoundParts {
  import opened ProviderSelection
  import opened TaskOutcome

  // ---------- what the provider and the surroundings answer ----------

  datatype Envelope =
    | CompletedEnvelope(typeMatches: bool, contractHolds: bool)
    | QuestionsEnvelope
    | CancelledEnvelope(byUser: bool)
    | FailedEnvelope(name: string, retryable: bool)

  datatype Unreadable = SpoolStoreMissing | ForeignSpool | SpoolUnclaimable

  datatype Reply =
    | Cancellation(byCaller: bool)
    | TooLarge
    | TransportFailure(fault: Fault, responseStarted: bool, networkFault: bool, providerCapacity: bool)
    | Unsealable(why: Unreadable)
    | Misframed(foreignCorrelation: bool, plainAnswer: bool)  // plainAnswer: no frame at all, but a usable text
    | Framed(envelope: Envelope)

  datatype Preparation = Prepared | CancelledUnsent | SetupThrows

  datatype Gate = Proceed | Refuse(outcome: Outcome)

  datatype WriteFate = Lands | StorageDown | ContentRefused(sizeDriven: bool)

  /** Everything the coordinator cannot decide, for every attempt it may allocate. Any function is possible:
      the surroundings are an adversary. */
  datatype Surroundings = Surroundings(
    attach: AttemptId -> bool,           // the allocation hook: false when it fails closed
    assemble: AttemptId -> bool,         // the tool session the prompt needs
    discards: AttemptId -> bool,         // storage of the pending record
    admission: AttemptId -> WriteFate,
    hook: AttemptId -> bool,             // the caller's pre-invocation hook: false when it throws
    prepare: AttemptId -> Preparation,
    gate: Gate,                          // the invocation-once claim of a Resume
    reply: AttemptId -> Reply,
    settles: AttemptId -> bool,
    posts: AttemptId -> WriteFate,
    leaseFree: AttemptId -> bool,        // the settlement lease phase
    promotes: AttemptId -> bool,
    quota: AttemptId -> bool)            // is the failure a usage limit?

  // ---------- the pending record ----------

  datatype RecordState = Absent | Pending | Posted | Ended(timedOut: bool)

  /** The operation's Chat transaction as far as one invocation is concerned. */
  class InvocationRecord {
    var state: RecordState

    constructor ()
      ensures state == Absent
    {
      state := Absent;
    }

    /** Best effort, and only ever a record that is still pending. */
    method Discard(works: bool)
      modifies this
      ensures state == if works && old(state).Pending? then Absent else old(state)
    {
      if works && state.Pending? {
        state := Absent;
      }
    }

    /** Exclusive create. */
    method Admit(fate: WriteFate) returns (r: WriteFate)
      modifies this
      ensures r == if fate.Lands? && !old(state).Absent? then ContentRefused(false) else fate
      ensures state == if r.Lands? then Pending else old(state)
    {
      r := fate;
      if fate.Lands? {
        if state.Absent? {
          state := Pending;
        } else {
          r := ContentRefused(false);
        }
      }
    }

    /** A terminal settlement, legal from any unsettled state. */
    method Settle(works: bool, timedOut: bool)
      modifies this
      ensures state == if works && (old(state).Pending? || old(state).Posted?) then Ended(timedOut) else old(state)
    {
      if works && (state.Pending? || state.Posted?) {
        state := Ended(timedOut);
      }
    }

    /** Questions turn the pending record into a real interaction, or create one. */
    method Post(fate: WriteFate) returns (r: WriteFate)
      modifies this
      ensures r == if fate.Lands? && !(old(state).Absent? || old(state).Pending?) then ContentRefused(false) else fate
      ensures state == if r.Lands? then Posted else old(state)
    {
      r := fate;
      if fate.Lands? {
        if state.Absent? || state.Pending? {
          state := Posted;
        } else {
          r := ContentRefused(false);
        }
      }
    }
  }

  // ---------- lease phases ----------

  class LeasePhases {
    var held: bool
    var acquired: nat
    var released: nat

    ghost predicate Balanced()
      reads this
    {
      acquired == released + (if held then 1 else 0)
    }

    constructor ()
      ensures !held && Balanced()
    {
      held, acquired, released := false, 0, 0;
    }

    method Acquire(free: bool) returns (ok: bool)
      requires Balanced() && !held
      modifies this
      ensures Balanced() && ok == held == free && acquired == old(acquired) + (if ok then 1 else 0)
    {
      ok := free;
      if free {
        held, acquired := true, acquired + 1;
      }
    }

    method Release()
      requires Balanced() && held
      modifies this
      ensures Balanced() && !held && acquired == old(acquired)
    {
      held, released := false, released + 1;
    }
  }

  // ---------- the workflow task ----------

  /** The artifact a completed result is promoted into, the only thing a round changes in the workflow task. */
  class Target {
    var promoted: seq<AttemptId>

    constructor ()
      ensures promoted == []
    {
      promoted := [];
    }

    /** Only under the lease, for a row that needs it. */
    method Promote(id: AttemptId, lease: LeasePhases, needsLease: bool, works: bool) returns (ok: bool)
      requires needsLease ==> lease.held
      modifies this
      ensures ok == works && promoted == old(promoted) + (if ok then [id] else [])
    {
      ok := works;
      if works {
        promoted := promoted + [id];
      }
    }
  }

  // ---------- the broker ----------

  /** Reaches the provider: at most once for an attempt, never while the operation holds its lease, and only while
      the pending record of an operation that keeps one is there. */
  class Broker {
    var calls: seq<AttemptId>

    constructor ()
      ensures calls == []
    {
      calls := [];
    }

    method Invoke(id: AttemptId, surroundings: Surroundings, lease: LeasePhases, record: InvocationRecord,
                  keepsRecord: bool)
      returns (reply: Reply)
      requires id !in calls
      requires !lease.held
      requires keepsRecord ==> record.state.Pending?
      modifies this
      ensures calls == old(calls) + [id] && reply == surroundings.reply(id)
    {
      calls := calls + [id];
      reply := surroundings.reply(id);
    }
  }
}
