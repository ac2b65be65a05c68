/**
  The booking state machine: per status, the list of handlers that may run, and
  the search for the first handler that reaches the wanted status.
 */
module BookingStateMachine {
  import opened Wrappers

  type Id = nat

  datatype BookingStatus = Available | Held | Booked | Completed | Disputed | Cancelled

  datatype BookingState = BookingState(
    id: Id, listingId: Id, status: BookingStatus, holdExpiresAt: Option<int>, depositAmount: int,
    bookedAt: Option<int>, completedAt: Option<int>)

  datatype Context = Context(holdExpiresAt: Option<int>, depositAmount: Option<int>, bookedAt: Option<int>,
                             completedAt: Option<int>)

  const NO_CONTEXT := Context(None, None, None, None)

  datatype Handler =
    | TakeHold | ConfirmHold | FreeHold | DropHold | CompleteStay | RaiseDispute | MarkCompleted | MarkCancelled

  /** The transition table. */
  function Transitions(status: BookingStatus): seq<Handler> {
    match status
    case Available => [TakeHold]
    case Held => [ConfirmHold, FreeHold, DropHold]
    case Booked => [CompleteStay, RaiseDispute, MarkCancelled]
    case Completed => []
    case Disputed => [MarkCompleted, MarkCancelled]
    case Cancelled => []
  }

  function RunHandler(h: Handler, s: BookingState, ctx: Context): BookingState {
    match h
    case TakeHold =>
      s.(status := Held, holdExpiresAt := ctx.holdExpiresAt,
         depositAmount := if ctx.depositAmount.Some? then ctx.depositAmount.value else s.depositAmount)
    case ConfirmHold => s.(status := Booked, holdExpiresAt := None, bookedAt := ctx.bookedAt)
    case FreeHold => s.(status := Available, holdExpiresAt := None)
    case DropHold => s.(status := Cancelled, holdExpiresAt := None)
    case CompleteStay => s.(status := Completed, completedAt := ctx.completedAt)
    case RaiseDispute => s.(status := Disputed)
    case MarkCompleted => s.(status := Completed)
    case MarkCancelled => s.(status := Cancelled)
  }

  function FirstReaching(handlers: seq<Handler>, s: BookingState, target: BookingStatus,
                         ctx: Context): Option<BookingState> {
    if |handlers| == 0 then None
    else if RunHandler(handlers[0], s, ctx).status == target then Some(RunHandler(handlers[0], s, ctx))
    else FirstReaching(handlers[1..], s, target, ctx)
  }

  /** None stands for the illegal-transition error. */
  function ApplyTransition(s: BookingState, target: BookingStatus, ctx: Context): Option<BookingState> {
    FirstReaching(Transitions(s.status), s, target, ctx)
  }

  /** The statuses the handlers produce when probed with a blank state. */
  predicate CanTransition(current: BookingStatus, target: BookingStatus) {
    var blank := BookingState(0, 0, current, None, 0, None, None);
    exists i :: 0 <= i < |Transitions(current)| &&
      RunHandler(Transitions(current)[i], blank, NO_CONTEXT).status == target
  }

  /** The edges of the table. */
  predicate IsEdge(a: BookingStatus, b: BookingStatus) {
    match a
    case Available => b == Held
    case Held => b == Booked || b == Available || b == Cancelled
    case Booked => b == Completed || b == Disputed || b == Cancelled
    case Disputed => b == Completed || b == Cancelled
    case Completed => false
    case Cancelled => false
  }

  lemma {:induction false} FirstReachingResult(handlers: seq<Handler>, s: BookingState, target: BookingStatus,
                                               ctx: Context)
    ensures var r := FirstReaching(handlers, s, target, ctx);
            && (r.Some? <==> exists i :: 0 <= i < |handlers| && RunHandler(handlers[i], s, ctx).status == target)
            && (r.Some? ==> r.value.status == target && r.value.id == s.id && r.value.listingId == s.listingId)
            && (r.Some? && target != Held ==> r.value.depositAmount == s.depositAmount)
            && (r.Some? ==> exists i :: 0 <= i < |handlers| && r.value == RunHandler(handlers[i], s, ctx))
  {
    hide RunHandler;
    if |handlers| > 0 {
      FirstReachingResult(handlers[1..], s, target, ctx);
      HandlerKeepsIdentity(handlers[0], s, ctx);
      if RunHandler(handlers[0], s, ctx).status != target {
        forall i | 0 <= i < |handlers| && RunHandler(handlers[i], s, ctx).status == target
          ensures 0 <= i - 1 < |handlers[1..]| && RunHandler(handlers[1..][i - 1], s, ctx).status == target
        {
        }
        forall i | 0 <= i < |handlers[1..]| ensures handlers[1..][i] == handlers[i + 1] {
        }
      }
    }
  }

  lemma HandlerKeepsIdentity(h: Handler, s: BookingState, ctx: Context)
    ensures RunHandler(h, s, ctx).id == s.id && RunHandler(h, s, ctx).listingId == s.listingId
    ensures RunHandler(h, s, ctx).status != Held ==> RunHandler(h, s, ctx).depositAmount == s.depositAmount
  {
  }

  lemma EdgesOfTable(current: BookingStatus, target: BookingStatus)
    ensures CanTransition(current, target) <==> IsEdge(current, target)
  {
    var hs := Transitions(current);
    assert |hs| > 0 ==> hs[0] == Transitions(current)[0];
    assert |hs| > 1 ==> hs[1] == Transitions(current)[1];
    assert |hs| > 2 ==> hs[2] == Transitions(current)[2];
  }

  lemma HandlerStatus(h: Handler, s: BookingState, s': BookingState, ctx: Context, ctx': Context)
    ensures RunHandler(h, s, ctx).status == RunHandler(h, s', ctx').status
  {
  }

  /** Applying a transition succeeds exactly along the edges of the table, whatever
      the rest of the state and context; it reaches the target, keeps the identity
      of the booking, and changes the deposit only when a hold is taken. */
  lemma ApplyFollowsTable(s: BookingState, target: BookingStatus, ctx: Context)
    ensures var r := ApplyTransition(s, target, ctx);
            && (r.Some? <==> CanTransition(s.status, target))
            && (r.Some? <==> IsEdge(s.status, target))
            && (r.Some? ==> r.value.status == target && r.value.id == s.id && r.value.listingId == s.listingId)
            && (r.Some? && target != Held ==> r.value.depositAmount == s.depositAmount)
  {
    hide FirstReaching, RunHandler;
    FirstReachingResult(Transitions(s.status), s, target, ctx);
    EdgesOfTable(s.status, target);
    var blank := BookingState(0, 0, s.status, None, 0, None, None);
    forall h ensures RunHandler(h, s, ctx).status == RunHandler(h, blank, NO_CONTEXT).status {
      HandlerStatus(h, s, blank, ctx, NO_CONTEXT);
    }
  }

  // ---------------------------------------------------------------------------
  // The stateful wrapper
  // ---------------------------------------------------------------------------

  datatype Op =
    | OpHold(depositAmount: int, holdExpiresAt: int)
    | OpConfirm(bookedAt: int)
    | OpRelease
    | OpCancel
    | OpComplete(completedAt: int)
    | OpDispute

  function Target(op: Op): BookingStatus {
    match op
    case OpHold(_, _) => Held
    case OpConfirm(_) => Booked
    case OpRelease => Available
    case OpCancel => Cancelled
    case OpComplete(_) => Completed
    case OpDispute => Disputed
  }

  function ContextOf(op: Op): Context {
    match op
    case OpHold(d, h) => NO_CONTEXT.(depositAmount := Some(d), holdExpiresAt := Some(h))
    case OpConfirm(t) => NO_CONTEXT.(bookedAt := Some(t))
    case OpComplete(t) => NO_CONTEXT.(completedAt := Some(t))
    case OpRelease => NO_CONTEXT
    case OpCancel => NO_CONTEXT
    case OpDispute => NO_CONTEXT
  }

  /** An illegal operation throws and leaves the captured state as it was. */
  function Perform(s: BookingState, op: Op): BookingState {
    var r := ApplyTransition(s, Target(op), ContextOf(op));
    if r.Some? then r.value else s
  }

  function PerformAll(s: BookingState, ops: seq<Op>): BookingState {
    if |ops| == 0 then s else Perform(PerformAll(s, ops[..|ops| - 1]), ops[|ops| - 1])
  }

  class Machine {
    var state: BookingState

    constructor (initial: BookingState)
      ensures state == initial.(status := Available)
    {
      state := initial.(status := Available);
    }

    method Do(op: Op) returns (ok: bool)
      modifies this
      ensures state == Perform(old(state), op)
      ensures ok <==> IsEdge(old(state).status, Target(op))
    {
      var r := ApplyTransition(state, Target(op), ContextOf(op));
      ApplyFollowsTable(state, Target(op), ContextOf(op));
      ok := r.Some?;
      if ok {
        state := r.value;
      }
    }
  }

  /** A deadline is recorded only while a hold is in force. */
  predicate DeadlineOnlyWhileHeld(s: BookingState) {
    s.holdExpiresAt.Some? ==> s.status == Held
  }

  /** What a legal operation leaves: the status it is named after; a hold records its
      deposit and deadline, a confirmation its time; the time of completion is recorded
      unless the stay was disputed; nothing else about the booking changes. */
  lemma OperationRecords(s: BookingState, op: Op)
    requires IsEdge(s.status, Target(op))
    ensures Perform(s, op) == match op
      case OpHold(deposit, deadline) =>
        s.(status := Held, depositAmount := deposit, holdExpiresAt := Some(deadline))
      case OpConfirm(t) => s.(status := Booked, holdExpiresAt := None, bookedAt := Some(t))
      case OpRelease => s.(status := Available, holdExpiresAt := None)
      case OpCancel => s.(status := Cancelled, holdExpiresAt := if s.status == Held then None else s.holdExpiresAt)
      case OpComplete(t) =>
        s.(status := Completed, completedAt := if s.status == Booked then Some(t) else s.completedAt)
      case OpDispute => s.(status := Disputed)
  {
    var ctx := ContextOf(op);
    FirstReachingResult(Transitions(s.status), s, Target(op), ctx);
    EdgesOfTable(s.status, Target(op));
    ApplyFollowsTable(s, Target(op), ctx);
    var r := ApplyTransition(s, Target(op), ctx);
    hide FirstReaching;
    var i :| 0 <= i < |Transitions(s.status)| && r.value == RunHandler(Transitions(s.status)[i], s, ctx);
  }

  lemma PerformFacts(s: BookingState, op: Op)
    ensures var s' := Perform(s, op);
            && (s' == s || IsEdge(s.status, s'.status))
            && s'.id == s.id && s'.listingId == s.listingId
            && (DeadlineOnlyWhileHeld(s) ==> DeadlineOnlyWhileHeld(s'))
            && (s.status == Available && s' != s ==> DeadlineOnlyWhileHeld(s'))
  {
    ApplyFollowsTable(s, Target(op), ContextOf(op));
    DeadlineAfter(s, op);
    hide ApplyTransition;
  }

  lemma DeadlineAfter(s: BookingState, op: Op)
    ensures var r := ApplyTransition(s, Target(op), ContextOf(op));
            r.Some? && (DeadlineOnlyWhileHeld(s) || s.status == Available) ==> DeadlineOnlyWhileHeld(r.value)
  {
    hide FirstReaching;
    var r := ApplyTransition(s, Target(op), ContextOf(op));
    FirstReachingResult(Transitions(s.status), s, Target(op), ContextOf(op));
    if r.Some? {
      var i :| 0 <= i < |Transitions(s.status)| && r.value == RunHandler(Transitions(s.status)[i], s, ContextOf(op));
    }
  }

  /** The longest way left from each status, once the hold has been left. */
  function StepsLeft(s: BookingStatus): nat {
    match s
    case Available => 3
    case Held => 3
    case Booked => 2
    case Disputed => 1
    case Completed => 0
    case Cancelled => 0
  }

  /** Over every run of the wrapper the booking keeps its identity; a booking that
      is completed or cancelled stays so; a confirmed one never becomes available
      or held again; and a deadline is only ever recorded on a hold. */
  lemma {:induction false} WrapperRuns(s: BookingState, ops: seq<Op>)
    ensures var s' := PerformAll(s, ops);
            && s'.id == s.id && s'.listingId == s.listingId
            && StepsLeft(s'.status) <= StepsLeft(s.status)
            && (s.status == Completed || s.status == Cancelled ==> s' == s)
            && (StepsLeft(s.status) < 3 && s' != s ==> StepsLeft(s'.status) < StepsLeft(s.status))
            && (DeadlineOnlyWhileHeld(s) ==> DeadlineOnlyWhileHeld(s'))
  {
    hide Perform;
    if |ops| > 0 {
      WrapperRuns(s, ops[..|ops| - 1]);
      PerformFacts(PerformAll(s, ops[..|ops| - 1]), ops[|ops| - 1]);
    }
  }
}
